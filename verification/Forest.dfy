/** What a flat list of blocks means as a forest (web/src/features/chat/lib/build-block-tree.ts):
    tool calls stand under the call they name as parent, and every block stands somewhere exactly
    when following parents never goes in a circle. */
module Forests {
  import opened Common
  import opened Dag
  import opened StreamingBlocks

  datatype Tree = Tree(block: UiBlock, children: seq<Tree>)

  function ToolIds(flat: seq<UiBlock>): set<string> {
    set b | b in flat && b.UiTool? :: b.id
  }

  predicate ChildOf(b: UiBlock, id: string) {
    b.UiTool? && b.parent == id && id != ""
  }

  /** Its parent is one of `ids`. */
  predicate Nested(b: UiBlock, ids: set<string>) {
    b.UiTool? && b.parent != "" && b.parent in ids
  }

  function ChildrenOf(flat: seq<UiBlock>, id: string): seq<UiBlock> {
    if flat == [] then []
    else (if ChildOf(flat[0], id) then [flat[0]] else []) + ChildrenOf(flat[1..], id)
  }

  function TopBlocks(flat: seq<UiBlock>, ids: set<string>): seq<UiBlock> {
    if flat == [] then []
    else (if !Nested(flat[0], ids) then [flat[0]] else []) + TopBlocks(flat[1..], ids)
  }

  /** The block that stands for an id: its last declaration. */
  function LastTool(blocks: seq<UiBlock>, id: string): (b: UiBlock)
    requires id in ToolIds(blocks)
    ensures b in blocks && b.UiTool? && b.id == id
    decreases |blocks|
  {
    var last := blocks[|blocks| - 1];
    if last.UiTool? && last.id == id then last
    else
      assert blocks == blocks[..|blocks| - 1] + [last];
      LastTool(blocks[..|blocks| - 1], id)
  }

  function Standing(flat: seq<UiBlock>, b: UiBlock): UiBlock {
    if b.UiTool? && b.id in ToolIds(flat) then LastTool(flat, b.id) else b
  }

  /** A block with what stands under it, to a depth. */
  function NodeAt(flat: seq<UiBlock>, b: UiBlock, depth: nat): Tree
    decreases depth, 0, 0
  {
    Tree(Standing(flat, b), if b.UiTool? && depth > 0 then NodesAt(flat, ChildrenOf(flat, b.id), depth - 1) else [])
  }

  function NodesAt(flat: seq<UiBlock>, list: seq<UiBlock>, depth: nat): seq<Tree>
    decreases depth, 1, |list|
  {
    if list == [] then [] else [NodeAt(flat, list[0], depth)] + NodesAt(flat, list[1..], depth)
  }

  /** The forest: no path from the top can pass more blocks than there are tool calls. */
  function Forest(flat: seq<UiBlock>): seq<Tree> {
    NodesAt(flat, TopBlocks(flat, ToolIds(flat)), |ToolIds(flat)|)
  }

  ghost predicate UniqueIds(flat: seq<UiBlock>) {
    forall i, j :: 0 <= i < j < |flat| && flat[i].UiTool? && flat[j].UiTool? ==> flat[i].id != flat[j].id
  }

  // ---------- circles of parents ----------

  /** An edge from the listed parent of a tool call to the call. */
  function ParentEdges(flat: seq<UiBlock>, ids: set<string>): seq<Edge> {
    if flat == [] then []
    else (if Nested(flat[0], ids) then [Edge(Id(flat[0].parent), Id(flat[0].id))] else []) + ParentEdges(flat[1..], ids)
  }

  /** Following listed parents never comes back to where it started, self-parents included. */
  ghost predicate NoCircles(flat: seq<UiBlock>) {
    !HasCycle(ParentEdges(flat, ToolIds(flat)))
  }

  lemma {:induction false} ParentEdgeIs(flat: seq<UiBlock>, ids: set<string>, e: Edge)
    ensures e in ParentEdges(flat, ids)
            <==> exists b :: b in flat && Nested(b, ids) && e == Edge(Id(b.parent), Id(b.id))
  {
    if flat != [] {
      ParentEdgeIs(flat[1..], ids, e);
      assert flat == [flat[0]] + flat[1..];
    }
  }

  // ---------- heights ----------

  /** The tool call with an id, when ids are unique. */
  lemma {:induction false} OnlyTool(flat: seq<UiBlock>, b: UiBlock)
    requires UniqueIds(flat) && b in flat && b.UiTool?
    ensures b.id in ToolIds(flat) && LastTool(flat, b.id) == b && Standing(flat, b) == b
  {
    var i :| 0 <= i < |flat| && flat[i] == b;
    var c := LastTool(flat, b.id);
    var j :| 0 <= j < |flat| && flat[j] == c;
  }

  /** Climbing from the call by k listed parents arrives at the top. */
  ghost predicate HeightIs(flat: seq<UiBlock>, id: string, k: nat)
    decreases k
  {
    && id in ToolIds(flat)
    && var b := LastTool(flat, id);
    && Nested(b, ToolIds(flat)) == (k > 0)
    && (k > 0 ==> HeightIs(flat, b.parent, k - 1))
  }

  lemma {:induction false} OneHeight(flat: seq<UiBlock>, id: string, j: nat, k: nat)
    requires HeightIs(flat, id, j) && HeightIs(flat, id, k)
    ensures j == k
    decreases j
  {
    if j > 0 {
      OneHeight(flat, LastTool(flat, id).parent, j - 1, k - 1);
    }
  }

  /** The ids from a call up to the top, one for each height. */
  lemma {:induction false} PathUp(flat: seq<UiBlock>, id: string, k: nat) returns (path: seq<string>)
    requires HeightIs(flat, id, k)
    ensures |path| == k + 1 && forall j :: 0 <= j <= k ==> HeightIs(flat, path[j], j)
    decreases k
  {
    if k == 0 {
      path := [id];
    } else {
      path := PathUp(flat, LastTool(flat, id).parent, k - 1);
      path := path + [id];
    }
  }

  lemma HeightBound(flat: seq<UiBlock>, id: string, k: nat)
    requires HeightIs(flat, id, k)
    ensures k < |ToolIds(flat)|
  {
    var path := PathUp(flat, id, k);
    forall i, j | 0 <= i < j < |path| ensures path[i] != path[j] {
      if path[i] == path[j] {
        OneHeight(flat, path[i], i, j);
      }
    }
    NoDuplicatesSize(path);
    assert Elements(path) <= ToolIds(flat);
    SubsetSize(Elements(path), ToolIds(flat));
  }

  ghost predicate HasHeight(flat: seq<UiBlock>, id: string) {
    exists k: nat :: HeightIs(flat, id, k)
  }

  lemma HeightStep(flat: seq<UiBlock>, b: UiBlock, k: nat)
    requires UniqueIds(flat) && b in flat && Nested(b, ToolIds(flat)) && HeightIs(flat, b.parent, k)
    ensures HeightIs(flat, b.id, k + 1)
  {
    OnlyTool(flat, b);
  }

  lemma WalkTail(edges: seq<Edge>, w: seq<NodeId>)
    requires IsWalk(edges, w) && |w| > 1
    ensures Edge(w[0], w[1]) in edges && IsWalk(edges, w[1..])
  {
    assert Edge(w[0], w[0 + 1]) in edges;
    forall i | 0 <= i < |w[1..]| - 1 ensures Edge(w[1..][i], w[1..][i + 1]) in edges {
      assert Edge(w[i + 1], w[i + 1 + 1]) in edges;
    }
  }

  lemma HeightAlongEdge(flat: seq<UiBlock>, id: string, next: NodeId, k: nat) returns (child: string)
    requires UniqueIds(flat) && Edge(Id(id), next) in ParentEdges(flat, ToolIds(flat)) && HeightIs(flat, id, k)
    ensures next == Id(child) && HeightIs(flat, child, k + 1)
  {
    ParentEdgeIs(flat, ToolIds(flat), Edge(Id(id), next));
    var b :| b in flat && Nested(b, ToolIds(flat)) && Edge(Id(id), next) == Edge(Id(b.parent), Id(b.id));
    HeightStep(flat, b, k);
    child := b.id;
  }

  /** Along parent edges heights go up by one. */
  lemma {:induction false} HeightsAlongWalk(flat: seq<UiBlock>, w: seq<NodeId>, id: string, k: nat)
    returns (last: string)
    requires UniqueIds(flat) && IsWalk(ParentEdges(flat, ToolIds(flat)), w)
    requires w[0] == Id(id) && HeightIs(flat, id, k)
    ensures w[|w| - 1] == Id(last) && HeightIs(flat, last, k + |w| - 1)
    decreases |w|
  {
    if |w| == 1 {
      last := id;
    } else {
      var edges := ParentEdges(flat, ToolIds(flat));
      WalkTail(edges, w);
      var next := HeightAlongEdge(flat, id, w[1], k);
      last := HeightsAlongWalk(flat, w[1..], next, k + 1);
    }
  }

  /** Every call has a height exactly when there is no circle of parents. */
  lemma HeightsIffNoCircles(flat: seq<UiBlock>)
    requires UniqueIds(flat)
    ensures NoCircles(flat) <==> forall id :: id in ToolIds(flat) ==> HasHeight(flat, id)
  {
    var edges := ParentEdges(flat, ToolIds(flat));
    if forall id :: id in ToolIds(flat) ==> HasHeight(flat, id) {
      forall w | IsCycle(edges, w) ensures false {
        CycleHasNoHeight(flat, w);
      }
    }
    if NoCircles(flat) {
      var left := set id | id in ToolIds(flat) && !HasHeight(flat, id) :: Id(id);
      if left != {} {
        HeightlessWait(flat, left);
        WaitingSetHasCycle(left, edges);
        assert false;
      }
      forall id | id in ToolIds(flat) ensures HasHeight(flat, id) {
        assert Id(id) !in left;
      }
    }
  }

  lemma CycleHasNoHeight(flat: seq<UiBlock>, w: seq<NodeId>)
    requires UniqueIds(flat) && IsCycle(ParentEdges(flat, ToolIds(flat)), w)
    ensures exists id :: id in ToolIds(flat) && !HasHeight(flat, id)
  {
    assert Edge(w[0], w[0 + 1]) in ParentEdges(flat, ToolIds(flat));
    ParentEdgeIs(flat, ToolIds(flat), Edge(w[0], w[1]));
    var b :| b in flat && Nested(b, ToolIds(flat)) && w[0] == Id(b.parent);
    if HasHeight(flat, b.parent) {
      var k: nat :| HeightIs(flat, b.parent, k);
      var last := HeightsAlongWalk(flat, w, b.parent, k);
      OneHeight(flat, b.parent, k, k + |w| - 1);
    }
    assert b.parent in ToolIds(flat);
  }

  lemma TopHasHeight(flat: seq<UiBlock>, id: string)
    requires id in ToolIds(flat) && !Nested(LastTool(flat, id), ToolIds(flat))
    ensures HasHeight(flat, id)
  {
    assert HeightIs(flat, id, 0);
  }

  lemma HeightlessWait(flat: seq<UiBlock>, left: set<NodeId>)
    requires UniqueIds(flat) && left == set id | id in ToolIds(flat) && !HasHeight(flat, id) :: Id(id)
    ensures forall n :: n in left ==> WaitsFor(n, left, ParentEdges(flat, ToolIds(flat)))
  {
    var edges := ParentEdges(flat, ToolIds(flat));
    forall n | n in left ensures WaitsFor(n, left, edges) {
      var id :| id in ToolIds(flat) && !HasHeight(flat, id) && n == Id(id);
      var b := LastTool(flat, id);
      if !Nested(b, ToolIds(flat)) {
        TopHasHeight(flat, id);
        assert false;
      }
      if HasHeight(flat, b.parent) {
        var k: nat :| HeightIs(flat, b.parent, k);
        HeightStep(flat, b, k);
        assert false;
      }
      assert Id(b.parent) in left;
      ParentEdgeIs(flat, ToolIds(flat), Edge(Id(b.parent), n));
    }
  }

  // ---------- every block once ----------

  /** How often a block stands in a tree, in trees, and in a list. */
  function TimesIn(t: Tree, b: UiBlock): nat
    decreases t
  {
    (if t.block == b then 1 else 0) + TimesInAll(t.children, b)
  }

  function TimesInAll(ts: seq<Tree>, b: UiBlock): nat
    decreases ts
  {
    if ts == [] then 0 else TimesIn(ts[0], b) + TimesInAll(ts[1..], b)
  }

  function Times(list: seq<UiBlock>, b: UiBlock): nat {
    if list == [] then 0 else (if list[0] == b then 1 else 0) + Times(list[1..], b)
  }

  lemma {:induction false} TimesInConcat(x: seq<Tree>, y: seq<Tree>, b: UiBlock)
    ensures TimesInAll(x + y, b) == TimesInAll(x, b) + TimesInAll(y, b)
  {
    if x == [] {
      assert x + y == y;
    } else {
      TimesInConcat(x[1..], y, b);
      assert (x + y)[1..] == x[1..] + y && (x + y)[0] == x[0];
    }
  }

  lemma {:induction false} NodesConcat(flat: seq<UiBlock>, a: seq<UiBlock>, b: seq<UiBlock>, depth: nat)
    ensures NodesAt(flat, a + b, depth) == NodesAt(flat, a, depth) + NodesAt(flat, b, depth)
  {
    if a == [] {
      assert a + b == b;
    } else {
      NodesConcat(flat, a[1..], b, depth);
      assert (a + b)[1..] == a[1..] + b && (a + b)[0] == a[0];
      Associate([NodeAt(flat, a[0], depth)], NodesAt(flat, a[1..], depth), NodesAt(flat, b, depth));
    }
  }

  /** The next level below a list of blocks. */
  function NextLevel(flat: seq<UiBlock>, list: seq<UiBlock>): seq<UiBlock> {
    if list == [] then []
    else (if list[0].UiTool? then ChildrenOf(flat, list[0].id) else []) + NextLevel(flat, list[1..])
  }

  /** How many calls with an id stand in a list. */
  function CountId(list: seq<UiBlock>, id: string): nat {
    if list == [] then 0 else (if list[0].UiTool? && list[0].id == id then 1 else 0) + CountId(list[1..], id)
  }

  lemma {:induction false} CountConcat(a: seq<UiBlock>, b: seq<UiBlock>, id: string)
    ensures CountId(a + b, id) == CountId(a, id) + CountId(b, id)
  {
    if a == [] {
      assert a + b == b;
    } else {
      CountConcat(a[1..], b, id);
      assert (a + b)[1..] == a[1..] + b && (a + b)[0] == a[0];
    }
  }

  lemma {:induction false} CountAbsent(list: seq<UiBlock>, id: string)
    ensures CountId(list, id) > 0 <==> id in ToolIds(list)
  {
    if list != [] {
      CountAbsent(list[1..], id);
      assert list == [list[0]] + list[1..];
      if id in ToolIds(list[1..]) {
        var b :| b in list[1..] && b.UiTool? && b.id == id;
        assert b in list;
      }
      if list[0].UiTool? && list[0].id == id { assert list[0] in list; }
    }
  }

  lemma UniqueTail(flat: seq<UiBlock>)
    requires UniqueIds(flat) && flat != []
    ensures UniqueIds(flat[1..]) && (flat[0].UiTool? ==> flat[0].id !in ToolIds(flat[1..]))
  {
    forall b | b in flat[1..] && b.UiTool? && flat[0].UiTool? ensures b.id != flat[0].id {
      var i :| 0 <= i < |flat| - 1 && flat[1..][i] == b;
      assert flat[i + 1] == b;
    }
  }

  lemma {:induction false} CountOnce(flat: seq<UiBlock>, id: string)
    requires UniqueIds(flat) && id in ToolIds(flat)
    ensures CountId(flat, id) == 1
  {
    UniqueTail(flat);
    assert flat == [flat[0]] + flat[1..];
    CountAbsent(flat[1..], id);
    if !(flat[0].UiTool? && flat[0].id == id) {
      CountOnce(flat[1..], id);
    }
  }

  /** A call stands among the children of an id once if it names it, else not at all. */
  lemma {:induction false} CountChildren(flat: seq<UiBlock>, parent: string, b: UiBlock)
    requires UniqueIds(flat) && b in flat && b.UiTool?
    ensures CountId(ChildrenOf(flat, parent), b.id) == if ChildOf(b, parent) then 1 else 0
  {
    UniqueTail(flat);
    var first := if ChildOf(flat[0], parent) then [flat[0]] else [];
    CountConcat(first, ChildrenOf(flat[1..], parent), b.id);
    ChildrenInside(flat[1..], parent);
    CountAbsent(ChildrenOf(flat[1..], parent), b.id);
    assert CountId(first, b.id) == if first != [] && first[0].id == b.id then 1 else 0;
    if b in flat[1..] {
      CountChildren(flat[1..], parent, b);
      assert flat[0].UiTool? ==> flat[0].id != b.id;
    } else {
      assert flat == [flat[0]] + flat[1..];
    }
  }

  lemma {:induction false} ChildrenInside(flat: seq<UiBlock>, id: string)
    ensures forall c :: c in ChildrenOf(flat, id) ==> c in flat && ChildOf(c, id)
    ensures ToolIds(ChildrenOf(flat, id)) <= ToolIds(flat)
  {
    if flat != [] {
      ChildrenInside(flat[1..], id);
    }
  }

  lemma {:induction false} CountNextLevel(flat: seq<UiBlock>, list: seq<UiBlock>, b: UiBlock)
    requires UniqueIds(flat) && b in flat && b.UiTool?
    ensures CountId(NextLevel(flat, list), b.id) == if b.parent == "" then 0 else CountId(list, b.parent)
  {
    if list != [] {
      CountNextLevel(flat, list[1..], b);
      var first := if list[0].UiTool? then ChildrenOf(flat, list[0].id) else [];
      CountConcat(first, NextLevel(flat, list[1..]), b.id);
      if list[0].UiTool? {
        CountChildren(flat, list[0].id, b);
      }
    }
  }

  lemma {:induction false} CountTop(flat: seq<UiBlock>, ids: set<string>, b: UiBlock)
    requires UniqueIds(flat) && b in flat && b.UiTool?
    ensures CountId(TopBlocks(flat, ids), b.id) == if Nested(b, ids) then 0 else 1
  {
    UniqueTail(flat);
    var first := if !Nested(flat[0], ids) then [flat[0]] else [];
    CountConcat(first, TopBlocks(flat[1..], ids), b.id);
    TopInside(flat[1..], ids);
    CountAbsent(TopBlocks(flat[1..], ids), b.id);
    assert CountId(first, b.id) == if first != [] && first[0].UiTool? && first[0].id == b.id then 1 else 0;
    if b in flat[1..] {
      CountTop(flat[1..], ids, b);
      assert flat[0].UiTool? ==> flat[0].id != b.id;
    } else {
      assert flat == [flat[0]] + flat[1..];
    }
  }

  lemma {:induction false} TopInside(flat: seq<UiBlock>, ids: set<string>)
    ensures forall c :: c in TopBlocks(flat, ids) ==> c in flat && !Nested(c, ids)
    ensures ToolIds(TopBlocks(flat, ids)) <= ToolIds(flat)
  {
    if flat != [] {
      TopInside(flat[1..], ids);
    }
  }

  /** The k-th level of the forest. */
  function Level(flat: seq<UiBlock>, k: nat): seq<UiBlock> {
    if k == 0 then TopBlocks(flat, ToolIds(flat)) else NextLevel(flat, Level(flat, k - 1))
  }

  lemma {:induction false} NextLevelInside(flat: seq<UiBlock>, list: seq<UiBlock>)
    ensures forall c :: c in NextLevel(flat, list) ==> c in flat && c.UiTool?
  {
    if list != [] {
      NextLevelInside(flat, list[1..]);
      if list[0].UiTool? {
        ChildrenInside(flat, list[0].id);
      }
    }
  }

  lemma LevelInside(flat: seq<UiBlock>, k: nat)
    ensures forall c :: c in Level(flat, k) ==> c in flat
    ensures k > 0 ==> forall c :: c in Level(flat, k) ==> c.UiTool?
  {
    if k == 0 {
      TopInside(flat, ToolIds(flat));
    } else {
      NextLevelInside(flat, Level(flat, k - 1));
    }
  }

  /** A call stands in the level of its height, once, and in no other. */
  lemma {:induction false} CountLevel(flat: seq<UiBlock>, k: nat, id: string)
    requires UniqueIds(flat) && id in ToolIds(flat)
    ensures CountId(Level(flat, k), id) == if HeightIs(flat, id, k) then 1 else 0
  {
    var b := LastTool(flat, id);
    if k == 0 {
      CountTop(flat, ToolIds(flat), b);
    } else {
      CountNextLevel(flat, Level(flat, k - 1), b);
      if b.parent in ToolIds(flat) {
        CountLevel(flat, k - 1, b.parent);
      } else {
        LevelInside(flat, k - 1);
        CountAbsent(Level(flat, k - 1), b.parent);
      }
    }
  }

  /** How often a block stands in a list and the levels below it, to a depth. */
  function TimesBelow(flat: seq<UiBlock>, list: seq<UiBlock>, depth: nat, b: UiBlock): nat
    decreases depth
  {
    Times(list, b) + if depth == 0 then 0 else TimesBelow(flat, NextLevel(flat, list), depth - 1, b)
  }

  /** One block and its trees. */
  lemma NodeTimes(flat: seq<UiBlock>, c: UiBlock, depth: nat, b: UiBlock)
    requires UniqueIds(flat) && c in flat
    ensures TimesIn(NodeAt(flat, c, depth), b)
            == (if c == b then 1 else 0)
             + if depth == 0 || !c.UiTool? then 0 else TimesInAll(NodesAt(flat, ChildrenOf(flat, c.id), depth - 1), b)
  {
    if c.UiTool? {
      OnlyTool(flat, c);
    }
  }

  lemma NextLevelNodes(flat: seq<UiBlock>, list: seq<UiBlock>, depth: nat, b: UiBlock)
    requires list != []
    ensures TimesInAll(NodesAt(flat, NextLevel(flat, list), depth), b)
            == (if list[0].UiTool? then TimesInAll(NodesAt(flat, ChildrenOf(flat, list[0].id), depth), b) else 0)
             + TimesInAll(NodesAt(flat, NextLevel(flat, list[1..]), depth), b)
  {
    var first, rest := if list[0].UiTool? then ChildrenOf(flat, list[0].id) else [], NextLevel(flat, list[1..]);
    NodesConcat(flat, first, rest, depth);
    TimesInConcat(NodesAt(flat, first, depth), NodesAt(flat, rest, depth), b);
  }

  /** The trees of a list hold the list itself and, one less deep, the trees of the next level. */
  lemma {:induction false} PeelLevel(flat: seq<UiBlock>, list: seq<UiBlock>, depth: nat, b: UiBlock)
    requires UniqueIds(flat) && forall c :: c in list ==> c in flat
    ensures TimesInAll(NodesAt(flat, list, depth), b)
            == Times(list, b) + if depth == 0 then 0 else TimesInAll(NodesAt(flat, NextLevel(flat, list), depth - 1), b)
    decreases |list|
  {
    if list != [] {
      PeelLevel(flat, list[1..], depth, b);
      NodeTimes(flat, list[0], depth, b);
      if depth > 0 {
        NextLevelNodes(flat, list, depth - 1, b);
      }
    } else if depth > 0 {
      assert NodesAt(flat, NextLevel(flat, list), depth - 1) == [];
    }
  }

  lemma {:induction false} NodesByLevel(flat: seq<UiBlock>, list: seq<UiBlock>, depth: nat, b: UiBlock)
    requires UniqueIds(flat) && forall c :: c in list ==> c in flat
    ensures TimesInAll(NodesAt(flat, list, depth), b) == TimesBelow(flat, list, depth, b)
    decreases depth
  {
    PeelLevel(flat, list, depth, b);
    if depth > 0 {
      NextLevelInside(flat, list);
      NodesByLevel(flat, NextLevel(flat, list), depth - 1, b);
    }
  }

  lemma {:induction false} CallTimes(flat: seq<UiBlock>, list: seq<UiBlock>, b: UiBlock)
    requires UniqueIds(flat) && b in flat && b.UiTool? && forall c :: c in list ==> c in flat
    ensures Times(list, b) == CountId(list, b.id)
    decreases |list|
  {
    if list != [] {
      CallTimes(flat, list[1..], b);
      if list[0].UiTool? && list[0].id == b.id {
        OnlyTool(flat, list[0]);
        OnlyTool(flat, b);
      }
    }
  }

  ghost predicate HeightWithin(flat: seq<UiBlock>, id: string, k: nat, depth: nat) {
    exists j: nat :: k <= j <= k + depth && HeightIs(flat, id, j)
  }

  lemma WithinStep(flat: seq<UiBlock>, id: string, k: nat, depth: nat)
    requires depth > 0
    ensures HeightWithin(flat, id, k, depth) <==> HeightIs(flat, id, k) || HeightWithin(flat, id, k + 1, depth - 1)
    ensures !(HeightIs(flat, id, k) && HeightWithin(flat, id, k + 1, depth - 1))
  {
    if HeightWithin(flat, id, k, depth) {
      var j: nat :| k <= j <= k + depth && HeightIs(flat, id, j);
      assert j == k || HeightWithin(flat, id, k + 1, depth - 1);
    }
    if HeightWithin(flat, id, k + 1, depth - 1) {
      var j: nat :| k + 1 <= j <= k + depth && HeightIs(flat, id, j);
      if HeightIs(flat, id, k) {
        OneHeight(flat, id, k, j);
      }
    }
  }

  /** Over the levels from k on, a call counts once if its height is among them. */
  lemma {:induction false} TimesAreHeights(flat: seq<UiBlock>, k: nat, depth: nat, b: UiBlock)
    requires UniqueIds(flat) && b in flat && b.UiTool?
    ensures TimesBelow(flat, Level(flat, k), depth, b) == if HeightWithin(flat, b.id, k, depth) then 1 else 0
    decreases depth
  {
    LevelTimes(flat, k, b);
    if depth > 0 {
      TimesAreHeights(flat, k + 1, depth - 1, b);
      WithinStep(flat, b.id, k, depth);
    } else {
      assert HeightWithin(flat, b.id, k, 0) <==> HeightIs(flat, b.id, k);
    }
  }

  lemma LevelTimes(flat: seq<UiBlock>, k: nat, b: UiBlock)
    requires UniqueIds(flat) && b in flat && b.UiTool?
    ensures Times(Level(flat, k), b) == if HeightIs(flat, b.id, k) then 1 else 0
    ensures NextLevel(flat, Level(flat, k)) == Level(flat, k + 1)
  {
    OnlyTool(flat, b);
    LevelInside(flat, k);
    CallTimes(flat, Level(flat, k), b);
    CountLevel(flat, k, b.id);
  }

  lemma {:induction false} TimesAbsent(list: seq<UiBlock>, b: UiBlock)
    ensures Times(list, b) > 0 <==> b in list
  {
    if list != [] {
      TimesAbsent(list[1..], b);
      assert list == [list[0]] + list[1..];
    }
  }

  lemma {:induction false} TopKeepsPlain(flat: seq<UiBlock>, ids: set<string>, b: UiBlock)
    requires !b.UiTool?
    ensures Times(TopBlocks(flat, ids), b) == Times(flat, b)
  {
    if flat != [] {
      TopKeepsPlain(flat[1..], ids, b);
      var rest := TopBlocks(flat[1..], ids);
      assert ([flat[0]] + rest)[1..] == rest;
      assert [] + rest == rest;
    }
  }

  lemma {:induction false} OnlyCallsBelow(flat: seq<UiBlock>, list: seq<UiBlock>, depth: nat, b: UiBlock)
    requires !(b in flat && b.UiTool?)
    ensures TimesBelow(flat, NextLevel(flat, list), depth, b) == 0
    decreases depth
  {
    NextLevelInside(flat, list);
    TimesAbsent(NextLevel(flat, list), b);
    if depth > 0 {
      OnlyCallsBelow(flat, NextLevel(flat, list), depth - 1, b);
    }
  }

  lemma ForestTimes(flat: seq<UiBlock>, b: UiBlock)
    requires UniqueIds(flat)
    ensures TimesInAll(Forest(flat), b) == TimesBelow(flat, Level(flat, 0), |ToolIds(flat)|, b)
  {
    TopInside(flat, ToolIds(flat));
    NodesByLevel(flat, TopBlocks(flat, ToolIds(flat)), |ToolIds(flat)|, b);
  }

  lemma HeightsAreWithin(flat: seq<UiBlock>, id: string)
    ensures HasHeight(flat, id) <==> HeightWithin(flat, id, 0, |ToolIds(flat)|)
  {
    if HasHeight(flat, id) {
      var k: nat :| HeightIs(flat, id, k);
      HeightBound(flat, id, k);
    }
  }

  /** A call stands in the forest once if climbing its listed parents reaches the top, and never
      otherwise. */
  lemma CallStands(flat: seq<UiBlock>, b: UiBlock)
    requires UniqueIds(flat) && b in flat && b.UiTool?
    ensures TimesInAll(Forest(flat), b) == if HasHeight(flat, b.id) then 1 else 0
    ensures Times(flat, b) == 1
  {
    ForestTimes(flat, b);
    TimesAreHeights(flat, 0, |ToolIds(flat)|, b);
    HeightsAreWithin(flat, b.id);
    OnlyTool(flat, b);
    CallTimes(flat, flat, b);
    CountOnce(flat, b.id);
  }

  /** Any other block stands on the top level as often as it is listed. */
  lemma PlainStands(flat: seq<UiBlock>, b: UiBlock)
    requires UniqueIds(flat) && !(b in flat && b.UiTool?)
    ensures TimesInAll(Forest(flat), b) == Times(flat, b)
  {
    ForestTimes(flat, b);
    NothingBelowTop(flat, Level(flat, 0), |ToolIds(flat)|, b);
    PlainOnTop(flat, b);
  }

  lemma NothingBelowTop(flat: seq<UiBlock>, list: seq<UiBlock>, depth: nat, b: UiBlock)
    requires !(b in flat && b.UiTool?)
    ensures TimesBelow(flat, list, depth, b) == Times(list, b)
  {
    if depth > 0 {
      OnlyCallsBelow(flat, list, depth - 1, b);
    }
  }

  lemma PlainOnTop(flat: seq<UiBlock>, b: UiBlock)
    requires !(b in flat && b.UiTool?)
    ensures Times(TopBlocks(flat, ToolIds(flat)), b) == Times(flat, b)
  {
    if b.UiTool? {
      TopInside(flat, ToolIds(flat));
      TimesAbsent(Level(flat, 0), b);
      TimesAbsent(flat, b);
    } else {
      TopKeepsPlain(flat, ToolIds(flat), b);
    }
  }

  /** Every block stands in the forest exactly as often as it is listed, so every call once. */
  ghost predicate AllStand(flat: seq<UiBlock>) {
    forall b :: TimesInAll(Forest(flat), b) == Times(flat, b)
  }

  lemma StandingHasHeight(flat: seq<UiBlock>, id: string)
    requires UniqueIds(flat) && AllStand(flat) && id in ToolIds(flat)
    ensures HasHeight(flat, id)
  {
    var b := LastTool(flat, id);
    CallStands(flat, b);
    assert TimesInAll(Forest(flat), b) == Times(flat, b);
  }

  lemma HeightStands(flat: seq<UiBlock>, b: UiBlock)
    requires UniqueIds(flat) && forall id :: id in ToolIds(flat) ==> HasHeight(flat, id)
    ensures TimesInAll(Forest(flat), b) == Times(flat, b)
  {
    if b in flat && b.UiTool? {
      CallStands(flat, b);
      assert b.id in ToolIds(flat);
    } else {
      PlainStands(flat, b);
    }
  }

  /** With unique tool ids, all blocks stand in the forest, every call exactly once, if and only if
      following listed parents never goes in a circle. */
  lemma EveryBlockOnce(flat: seq<UiBlock>)
    requires UniqueIds(flat)
    ensures AllStand(flat) <==> NoCircles(flat)
  {
    HeightsIffNoCircles(flat);
    if NoCircles(flat) {
      forall b ensures TimesInAll(Forest(flat), b) == Times(flat, b) {
        HeightStands(flat, b);
      }
    }
    if AllStand(flat) {
      forall id | id in ToolIds(flat) ensures HasHeight(flat, id) {
        StandingHasHeight(flat, id);
      }
    }
  }

  // ---------- under its parent, in order ----------

  function RootBlocks(ts: seq<Tree>): seq<UiBlock> {
    seq(|ts|, k requires 0 <= k < |ts| => ts[k].block)
  }

  lemma {:induction false} RootsOfNodes(flat: seq<UiBlock>, list: seq<UiBlock>, depth: nat)
    requires UniqueIds(flat) && forall c :: c in list ==> c in flat
    ensures RootBlocks(NodesAt(flat, list, depth)) == list
  {
    if list != [] {
      RootsOfNodes(flat, list[1..], depth);
      if list[0].UiTool? { OnlyTool(flat, list[0]); }
    }
  }

  // ---------- who stands where, said of the list ----------

  /** A call of the list that names `id` as its parent. */
  ghost function Names(id: string): UiBlock -> bool {
    (b: UiBlock) => b.UiTool? && b.parent == id && id != ""
  }

  ghost predicate Listed(flat: seq<UiBlock>, id: string) {
    exists k :: 0 <= k < |flat| && flat[k].UiTool? && flat[k].id == id
  }

  /** A block that names no listed call as its parent. */
  ghost function Parentless(flat: seq<UiBlock>): UiBlock -> bool {
    (b: UiBlock) => !(b.UiTool? && b.parent != "" && Listed(flat, b.parent))
  }

  ghost predicate ListsAt(part: seq<UiBlock>, flat: seq<UiBlock>, p: UiBlock -> bool, at: seq<nat>) {
    Selects(flat, p, at) && |part| == |at| && forall i :: 0 <= i < |at| ==> part[i] == flat[at[i]]
  }

  /** `part` lists the blocks of `flat` that `p` holds of, all of them and in order. */
  ghost predicate ListsAll(part: seq<UiBlock>, flat: seq<UiBlock>, p: UiBlock -> bool) {
    exists at :: ListsAt(part, flat, p, at)
  }

  lemma ListsAtSnoc(part: seq<UiBlock>, flat: seq<UiBlock>, p: UiBlock -> bool, at: seq<nat>, last: UiBlock)
    requires ListsAt(part, flat, p, at)
    ensures p(last) ==> ListsAt(part + [last], flat + [last], p, at + [|flat|])
    ensures !p(last) ==> ListsAt(part, flat + [last], p, at)
  {
    SelectsSnoc(flat, p, at, last);
  }

  lemma ListsAllSnoc(part: seq<UiBlock>, flat: seq<UiBlock>, p: UiBlock -> bool, last: UiBlock)
    requires ListsAll(part, flat, p)
    ensures ListsAll(part + if p(last) then [last] else [], flat + [last], p)
  {
    var at :| ListsAt(part, flat, p, at);
    ListsAtSnoc(part, flat, p, at, last);
    assert part + [] == part;
  }

  lemma ListsNothing(p: UiBlock -> bool)
    ensures ListsAll([], [], p)
  {
    assert ListsAt([], [], p, []);
  }

  lemma ChildrenSnoc(flat: seq<UiBlock>, last: UiBlock, id: string)
    ensures ChildrenOf(flat + [last], id) == ChildrenOf(flat, id) + if ChildOf(last, id) then [last] else []
  {
    ChildrenConcat(flat, [last], id);
    assert [last][1..] == [];
  }

  lemma {:induction false} ChildrenAre(flat: seq<UiBlock>, id: string)
    ensures ListsAll(ChildrenOf(flat, id), flat, Names(id))
  {
    if flat == [] {
      ListsNothing(Names(id));
    } else {
      var front, last := flat[..|flat| - 1], flat[|flat| - 1];
      assert front + [last] == flat;
      ChildrenAre(front, id);
      ChildrenSnoc(front, last, id);
      ListsAllSnoc(ChildrenOf(front, id), front, Names(id), last);
    }
  }

  lemma TopSnoc(flat: seq<UiBlock>, last: UiBlock, ids: set<string>)
    ensures TopBlocks(flat + [last], ids) == TopBlocks(flat, ids) + if !Nested(last, ids) then [last] else []
  {
    TopConcat(flat, [last], ids);
    assert [last][1..] == [];
  }

  lemma {:induction false} TopAre(list: seq<UiBlock>, flat: seq<UiBlock>)
    ensures ListsAll(TopBlocks(list, ToolIds(flat)), list, Parentless(flat))
  {
    if list == [] {
      ListsNothing(Parentless(flat));
    } else {
      var front, last := list[..|list| - 1], list[|list| - 1];
      assert front + [last] == list;
      TopAre(front, flat);
      TopSnoc(front, last, ToolIds(flat));
      assert last.UiTool? ==> (last.parent in ToolIds(flat) <==> Listed(flat, last.parent));
      ListsAllSnoc(TopBlocks(front, ToolIds(flat)), front, Parentless(flat), last);
    }
  }

  /** The top level holds, in list order, the blocks that name no listed call as their parent. */
  lemma RootsAreTop(flat: seq<UiBlock>)
    requires UniqueIds(flat)
    ensures RootBlocks(Forest(flat)) == TopBlocks(flat, ToolIds(flat))
    ensures ListsAll(RootBlocks(Forest(flat)), flat, Parentless(flat))
  {
    TopAre(flat, flat);
    TopInside(flat, ToolIds(flat));
    RootsOfNodes(flat, TopBlocks(flat, ToolIds(flat)), |ToolIds(flat)|);
  }

  ghost predicate StandsIn(t: Tree, ts: seq<Tree>)
    decreases ts
  {
    ts != [] && (t == ts[0] || StandsIn(t, ts[0].children) || StandsIn(t, ts[1..]))
  }

  /** A tree of the forest whose root is a call holds, in list order, all the blocks of the list
      that name the call as their parent: no depth is cut off. */
  lemma {:induction false} ChildrenUnderParent(flat: seq<UiBlock>, t: Tree)
    requires UniqueIds(flat) && StandsIn(t, Forest(flat)) && t.block.UiTool?
    ensures RootBlocks(t.children) == ChildrenOf(flat, t.block.id)
    ensures ListsAll(RootBlocks(t.children), flat, Names(t.block.id))
  {
    ChildrenAre(flat, t.block.id);
    TopInside(flat, ToolIds(flat));
    var top := TopBlocks(flat, ToolIds(flat));
    forall c | c in top && c.UiTool? ensures HeightIs(flat, c.id, 0) {
      OnlyTool(flat, c);
    }
    ChildrenInNodes(flat, top, |ToolIds(flat)|, 0, t);
  }

  ghost predicate AtHeight(flat: seq<UiBlock>, list: seq<UiBlock>, k: nat) {
    forall c :: c in list ==> c in flat && (c.UiTool? ==> HeightIs(flat, c.id, k))
  }

  lemma {:induction false} ChildrenInNodes(flat: seq<UiBlock>, list: seq<UiBlock>, depth: nat, k: nat, t: Tree)
    requires UniqueIds(flat) && AtHeight(flat, list, k) && depth + k == |ToolIds(flat)|
    requires StandsIn(t, NodesAt(flat, list, depth)) && t.block.UiTool?
    ensures RootBlocks(t.children) == ChildrenOf(flat, t.block.id)
    decreases depth, 1, |list|
  {
    if list == [] {
      assert false;
    } else if t == NodeAt(flat, list[0], depth) || StandsIn(t, NodeAt(flat, list[0], depth).children) {
      ChildrenInNode(flat, list[0], depth, k, t);
    } else {
      ChildrenInNodes(flat, list[1..], depth, k, t);
    }
  }

  lemma {:induction false} ChildrenInNode(flat: seq<UiBlock>, b: UiBlock, depth: nat, k: nat, t: Tree)
    requires UniqueIds(flat) && b in flat && (b.UiTool? ==> HeightIs(flat, b.id, k)) && depth + k == |ToolIds(flat)|
    requires t == NodeAt(flat, b, depth) || StandsIn(t, NodeAt(flat, b, depth).children)
    requires t.block.UiTool?
    ensures RootBlocks(t.children) == ChildrenOf(flat, t.block.id)
    decreases depth, 0
  {
    if b.UiTool? {
      OnlyTool(flat, b);
      HeightBound(flat, b.id, k);
      var below := ChildrenOf(flat, b.id);
      ChildrenInside(flat, b.id);
      if t == NodeAt(flat, b, depth) {
        RootsOfNodes(flat, below, depth - 1);
      } else {
        ChildrenHigher(flat, b, k);
        ChildrenInNodes(flat, below, depth - 1, k + 1, t);
      }
    }
  }

  lemma ChildrenHigher(flat: seq<UiBlock>, b: UiBlock, k: nat)
    requires UniqueIds(flat) && b in flat && b.UiTool? && HeightIs(flat, b.id, k)
    ensures AtHeight(flat, ChildrenOf(flat, b.id), k + 1)
  {
    ChildrenInside(flat, b.id);
    forall c | c in ChildrenOf(flat, b.id) ensures HeightIs(flat, c.id, k + 1) {
      HeightStep(flat, c, k);
    }
  }

  // ---------- lists in two parts ----------

  lemma {:induction false} ChildrenConcat(a: seq<UiBlock>, b: seq<UiBlock>, id: string)
    ensures ChildrenOf(a + b, id) == ChildrenOf(a, id) + ChildrenOf(b, id)
  {
    if a == [] {
      assert a + b == b;
    } else {
      ChildrenConcat(a[1..], b, id);
      assert (a + b)[1..] == a[1..] + b && (a + b)[0] == a[0];
      Associate(if ChildOf(a[0], id) then [a[0]] else [], ChildrenOf(a[1..], id), ChildrenOf(b, id));
    }
  }

  lemma {:induction false} TopConcat(a: seq<UiBlock>, b: seq<UiBlock>, ids: set<string>)
    ensures TopBlocks(a + b, ids) == TopBlocks(a, ids) + TopBlocks(b, ids)
  {
    if a == [] {
      assert a + b == b;
    } else {
      TopConcat(a[1..], b, ids);
      assert (a + b)[1..] == a[1..] + b && (a + b)[0] == a[0];
      Associate(if !Nested(a[0], ids) then [a[0]] else [], TopBlocks(a[1..], ids), TopBlocks(b, ids));
    }
  }

  lemma ToolIdsConcat(a: seq<UiBlock>, b: seq<UiBlock>)
    ensures ToolIds(a + b) == ToolIds(a) + ToolIds(b)
  {
  }

  // ---------- calls appended under listed ones ----------

  lemma UniqueFront(a: seq<UiBlock>, b: seq<UiBlock>)
    requires UniqueIds(a + b)
    ensures UniqueIds(a)
  {
    assert forall i :: 0 <= i < |a| ==> a[i] == (a + b)[i];
  }

  /** When no block of the front names an appended one, heights in the front stay. */
  lemma {:induction false} HeightsInFront(a: seq<UiBlock>, b: seq<UiBlock>, id: string, k: nat)
    requires UniqueIds(a + b) && id in ToolIds(a)
    requires forall x :: x in a && x.UiTool? ==> x.parent !in ToolIds(b)
    ensures HeightIs(a + b, id, k) <==> HeightIs(a, id, k)
    decreases k
  {
    var x := LastTool(a, id);
    ToolIdsConcat(a, b);
    OnlyTool(a + b, x);
    if k > 0 && Nested(x, ToolIds(a)) {
      HeightsInFront(a, b, x.parent, k - 1);
    }
  }

  lemma HeightInFront(a: seq<UiBlock>, b: seq<UiBlock>, id: string)
    requires UniqueIds(a + b) && id in ToolIds(a)
    requires forall x :: x in a && x.UiTool? ==> x.parent !in ToolIds(b)
    ensures HasHeight(a + b, id) <==> HasHeight(a, id)
  {
    if HasHeight(a + b, id) {
      var k: nat :| HeightIs(a + b, id, k);
      HeightsInFront(a, b, id, k);
    }
    if HasHeight(a, id) {
      var k: nat :| HeightIs(a, id, k);
      HeightsInFront(a, b, id, k);
    }
  }

  /** Appending calls under listed ones makes no circle and breaks none. */
  lemma AppendedKeepNoCircles(a: seq<UiBlock>, b: seq<UiBlock>)
    requires UniqueIds(a + b)
    requires forall x :: x in a && x.UiTool? ==> x.parent !in ToolIds(b)
    requires forall x :: x in b && x.UiTool? ==> x.parent in ToolIds(a)
    ensures NoCircles(a + b) <==> NoCircles(a)
  {
    UniqueFront(a, b);
    ToolIdsConcat(a, b);
    HeightsIffNoCircles(a);
    HeightsIffNoCircles(a + b);
    forall id | id in ToolIds(a) ensures HasHeight(a + b, id) <==> HasHeight(a, id) {
      HeightInFront(a, b, id);
    }
    forall x | x in b && x.UiTool? && HasHeight(a + b, x.parent) ensures HasHeight(a + b, x.id) {
      AppendedHeight(a, b, x);
    }
  }

  lemma AppendedHeight(a: seq<UiBlock>, b: seq<UiBlock>, x: UiBlock)
    requires UniqueIds(a + b) && x in b && x.UiTool? && x.parent in ToolIds(a) && HasHeight(a + b, x.parent)
    ensures HasHeight(a + b, x.id)
  {
    OnlyTool(a + b, x);
    ToolIdsConcat(a, b);
    var k: nat :| HeightIs(a + b, x.parent, k);
    if x.parent == "" {
      TopHasHeight(a + b, x.id);
    } else {
      HeightStep(a + b, x, k);
    }
  }
}
