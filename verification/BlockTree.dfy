/** The tree builder (web/src/features/chat/lib/build-block-tree.ts) on node objects: sub-agent tool
    calls are nested under the call that started them. */
module BlockTree {
  import opened Common
  import opened StreamingBlocks
  import opened Forests

  // ---------- the code, on node objects ----------

  class ToolNode {
    const block: UiBlock
    var children: Option<seq<ToolNode>>

    constructor (b: UiBlock)
      ensures block == b && children == Some([])
    {
      block := b;
      children := Some([]);
    }
  }

  /** An entry of the tree list: a block itself, or the clone of a tool block. */
  datatype Item = Plain(block: UiBlock) | Clone(node: ToolNode)

  type ToolMap = map<string, ToolNode>

  ghost predicate Distinct(m: ToolMap) {
    forall a, b :: a in m && b in m && a != b ==> m[a] != m[b]
  }

  function NodesOf(m: ToolMap, blocks: seq<UiBlock>): seq<ToolNode> {
    if blocks == [] then []
    else
      var last := blocks[|blocks| - 1];
      NodesOf(m, blocks[..|blocks| - 1]) + if last.UiTool? && last.id in m then [m[last.id]] else []
  }

  lemma {:induction false} NodesOfConcat(m: ToolMap, a: seq<UiBlock>, b: seq<UiBlock>)
    ensures NodesOf(m, a + b) == NodesOf(m, a) + NodesOf(m, b)
  {
    if b == [] {
      assert a + b == a;
    } else {
      NodesOfConcat(m, a, b[..|b| - 1]);
      assert (a + b)[..|a + b| - 1] == a + b[..|b| - 1];
    }
  }

  function ItemOf(m: ToolMap, b: UiBlock): Item {
    if b.UiTool? && b.id in m then Clone(m[b.id]) else Plain(b)
  }

  function ItemsOf(m: ToolMap, blocks: seq<UiBlock>): seq<Item> {
    if blocks == [] then []
    else ItemsOf(m, blocks[..|blocks| - 1]) + [ItemOf(m, blocks[|blocks| - 1])]
  }

  lemma {:induction false} ItemsConcat(m: ToolMap, a: seq<UiBlock>, b: seq<UiBlock>)
    ensures ItemsOf(m, a + b) == ItemsOf(m, a) + ItemsOf(m, b)
  {
    if b == [] {
      assert a + b == a;
    } else {
      ItemsConcat(m, a, b[..|b| - 1]);
      assert (a + b)[..|a + b| - 1] == a + b[..|b| - 1];
    }
  }

  /** First pass: clone the tool blocks; a later block replaces an earlier one of its id. */
  method CloneTools(flat: seq<UiBlock>) returns (m: ToolMap)
    ensures m.Keys == ToolIds(flat) && Distinct(m)
    ensures forall id :: id in m ==> fresh(m[id]) && m[id].block == LastTool(flat, id) && m[id].children == Some([])
  {
    m := map[];
    for i := 0 to |flat|
      invariant m.Keys == ToolIds(flat[..i]) && Distinct(m)
      invariant forall id :: id in m ==>
        fresh(m[id]) && m[id].block == LastTool(flat[..i], id) && m[id].children == Some([])
    {
      assert flat[..i + 1] == flat[..i] + [flat[i]] && flat[..i + 1][..i] == flat[..i];
      if flat[i].UiTool? {
        var node := new ToolNode(flat[i]);
        m := m[flat[i].id := node];
      }
    }
    assert flat[..|flat|] == flat;
  }

  /** The children lists after some blocks were pushed. */
  function Kids(m: ToolMap, blocks: seq<UiBlock>): map<string, seq<ToolNode>> {
    map id | id in m :: NodesOf(m, ChildrenOf(blocks, id))
  }

  function Pushed(m: ToolMap, kids: map<string, seq<ToolNode>>, b: UiBlock): map<string, seq<ToolNode>>
    requires kids.Keys == m.Keys
  {
    map id | id in m :: kids[id] + if ChildOf(b, id) && b.id in m then [m[b.id]] else []
  }

  lemma ChildrenStep(m: ToolMap, flat: seq<UiBlock>, i: nat, id: string)
    requires i < |flat|
    ensures NodesOf(m, ChildrenOf(flat[..i + 1], id))
            == NodesOf(m, ChildrenOf(flat[..i], id))
             + if ChildOf(flat[i], id) && flat[i].id in m then [m[flat[i].id]] else []
  {
    var b := flat[i];
    assert flat[..i + 1] == flat[..i] + [b];
    ChildrenConcat(flat[..i], [b], id);
    assert ChildrenOf([b], id) == if ChildOf(b, id) then [b] else [];
    NodesOfConcat(m, ChildrenOf(flat[..i], id), ChildrenOf([b], id));
    assert [b][..0] == [];
  }

  lemma KidsStep(m: ToolMap, flat: seq<UiBlock>, i: nat)
    requires i < |flat|
    ensures Kids(m, flat[..i + 1]) == Pushed(m, Kids(m, flat[..i]), flat[i])
  {
    var before, now := Kids(m, flat[..i]), Kids(m, flat[..i + 1]);
    forall id | id in m
      ensures now[id] == before[id] + if ChildOf(flat[i], id) && flat[i].id in m then [m[flat[i].id]] else []
    {
      ChildrenStep(m, flat, i, id);
    }
  }

  lemma TopStep(m: ToolMap, flat: seq<UiBlock>, i: nat, ids: set<string>)
    requires i < |flat|
    ensures ItemsOf(m, TopBlocks(flat[..i + 1], ids))
            == ItemsOf(m, TopBlocks(flat[..i], ids)) + if !Nested(flat[i], ids) then [ItemOf(m, flat[i])] else []
  {
    var b := flat[i];
    assert flat[..i + 1] == flat[..i] + [b];
    TopConcat(flat[..i], [b], ids);
    assert TopBlocks([b], ids) == if !Nested(b, ids) then [b] else [];
    ItemsConcat(m, TopBlocks(flat[..i], ids), TopBlocks([b], ids));
    assert [b][..0] == [];
  }

  ghost predicate HasKids(m: ToolMap, kids: map<string, seq<ToolNode>>)
    reads m.Values
  {
    kids.Keys == m.Keys && forall id :: id in m ==> m[id].children == Some(kids[id])
  }

  /** One turn of the second pass. */
  method NestOne(m: ToolMap, b: UiBlock, tree: seq<Item>, ghost kids: map<string, seq<ToolNode>>)
    returns (tree': seq<Item>)
    requires Distinct(m) && HasKids(m, kids) && (b.UiTool? ==> b.id in m)
    modifies m.Values
    ensures HasKids(m, Pushed(m, kids, b))
    ensures tree' == tree + if !Nested(b, m.Keys) then [ItemOf(m, b)] else []
  {
    tree' := tree;
    if b.UiTool? {
      var node := m[b.id];
      if b.parent != "" && b.parent in m {
        var parent := m[b.parent];
        parent.children := Some(parent.children.value + [node]);
      } else {
        tree' := tree + [Clone(node)];
      }
    } else {
      tree' := tree + [Plain(b)];
    }
    forall id | id in m ensures m[id].children == Some(Pushed(m, kids, b)[id]) {
      assert kids[id] + [] == kids[id];
    }
  }

  /** Second pass: push every block under its parent, or on the top level. */
  method NestTools(flat: seq<UiBlock>, m: ToolMap) returns (tree: seq<Item>)
    requires m.Keys == ToolIds(flat) && Distinct(m)
    requires forall id :: id in m ==> m[id].children == Some([])
    modifies m.Values
    ensures HasKids(m, Kids(m, flat))
    ensures tree == ItemsOf(m, TopBlocks(flat, ToolIds(flat)))
  {
    tree := [];
    ghost var kids := Kids(m, flat[..0]);
    for i := 0 to |flat|
      invariant HasKids(m, kids) && kids == Kids(m, flat[..i])
      invariant tree == ItemsOf(m, TopBlocks(flat[..i], m.Keys))
    {
      assert flat[i] in flat;
      KidsStep(m, flat, i);
      TopStep(m, flat, i, m.Keys);
      tree := NestOne(m, flat[i], tree, kids);
      kids := Kids(m, flat[..i + 1]);
    }
    assert flat[..|flat|] == flat;
  }

  function NonEmpty(children: Option<seq<ToolNode>>): Option<seq<ToolNode>> {
    if children == Some([]) then None else children
  }

  /** Third pass: delete empty children lists. */
  method StripEmpty(m: ToolMap)
    modifies m.Values
    ensures forall id :: id in m ==> m[id].children == NonEmpty(old(m[id].children))
  {
    var todo := m.Values;
    while todo != {}
      invariant todo <= m.Values
      invariant forall n :: n in todo ==> n.children == old(n.children)
      invariant forall n :: n in m.Values - todo ==> n.children == NonEmpty(old(n.children))
      decreases todo
    {
      var node :| node in todo;
      if node.children.Some? && node.children.value == [] {
        node.children := None;
      }
      todo := todo - {node};
    }
    forall id | id in m ensures m[id] in m.Values {
    }
  }

  // ---------- the object graph shows the forest ----------

  /** The node objects of a flat list after all three passes. */
  ghost predicate Represents(m: ToolMap, flat: seq<UiBlock>)
    reads m.Values
  {
    && m.Keys == ToolIds(flat)
    && forall id :: id in m ==>
         && m[id].block == LastTool(flat, id)
         && m[id].children == NonEmpty(Some(Kids(m, flat)[id]))
  }

  /** What a reader that follows `children` sees, to a depth. */
  ghost function Read(nodes: set<ToolNode>, node: ToolNode, depth: nat): Tree
    reads nodes
    decreases depth, 0
  {
    if depth == 0 || node !in nodes || node.children.None? then Tree(node.block, [])
    else Tree(node.block, ReadAll(nodes, node.children.value, depth - 1))
  }

  ghost function ReadAll(nodes: set<ToolNode>, list: seq<ToolNode>, depth: nat): seq<Tree>
    reads nodes
    decreases depth, 1, |list|
  {
    if list == [] then [] else [Read(nodes, list[0], depth)] + ReadAll(nodes, list[1..], depth)
  }

  ghost function ReadItems(nodes: set<ToolNode>, items: seq<Item>, depth: nat): seq<Tree>
    reads nodes
  {
    if items == [] then [] else [ReadItem(nodes, items[0], depth)] + ReadItems(nodes, items[1..], depth)
  }

  ghost function ReadItem(nodes: set<ToolNode>, item: Item, depth: nat): Tree
    reads nodes
  {
    match item
    case Plain(b) => Tree(b, [])
    case Clone(node) => Read(nodes, node, depth)
  }

  lemma NodesCons(m: ToolMap, list: seq<UiBlock>)
    requires list != [] && list[0].UiTool? && list[0].id in m
    ensures NodesOf(m, list) == [m[list[0].id]] + NodesOf(m, list[1..])
  {
    assert list == [list[0]] + list[1..];
    NodesOfConcat(m, [list[0]], list[1..]);
    assert [list[0]][..0] == [];
  }

  lemma ReadAllCons(nodes: set<ToolNode>, first: ToolNode, rest: seq<ToolNode>, depth: nat)
    ensures ReadAll(nodes, [first] + rest, depth) == [Read(nodes, first, depth)] + ReadAll(nodes, rest, depth)
  {
    assert ([first] + rest)[1..] == rest;
  }

  /** A node object shows the block of its id, and its children. */
  lemma ReadWithKids(m: ToolMap, flat: seq<UiBlock>, b: UiBlock, depth: nat)
    requires Represents(m, flat) && b.UiTool? && b.id in m
    requires depth > 0 ==>
      ReadAll(m.Values, NodesOf(m, ChildrenOf(flat, b.id)), depth - 1)
      == NodesAt(flat, ChildrenOf(flat, b.id), depth - 1)
    ensures Read(m.Values, m[b.id], depth) == NodeAt(flat, b, depth)
  {
    assert m[b.id] in m.Values;
    assert m[b.id].block == Standing(flat, b);
    var kids := NodesOf(m, ChildrenOf(flat, b.id));
    assert m[b.id].children == NonEmpty(Some(kids));
    if depth > 0 {
      ReadOne(m.Values, m[b.id], kids, depth);
    }
  }

  lemma ReadOne(nodes: set<ToolNode>, node: ToolNode, kids: seq<ToolNode>, depth: nat)
    requires node in nodes && node.children == NonEmpty(Some(kids)) && depth > 0
    ensures Read(nodes, node, depth) == Tree(node.block, ReadAll(nodes, kids, depth - 1))
  {
  }

  lemma {:induction false} ReadNode(m: ToolMap, flat: seq<UiBlock>, b: UiBlock, depth: nat)
    requires Represents(m, flat) && b.UiTool? && b.id in m
    ensures Read(m.Values, m[b.id], depth) == NodeAt(flat, b, depth)
    decreases depth, 0, 0
  {
    if depth > 0 {
      var below: nat, kids := depth - 1, ChildrenOf(flat, b.id);
      ChildrenInside(flat, b.id);
      ReadList(m, flat, kids, below);
    }
    ReadWithKids(m, flat, b, depth);
  }

  lemma {:induction false} ReadList(m: ToolMap, flat: seq<UiBlock>, list: seq<UiBlock>, depth: nat)
    requires Represents(m, flat) && forall c :: c in list ==> c.UiTool? && c in flat
    ensures ReadAll(m.Values, NodesOf(m, list), depth) == NodesAt(flat, list, depth)
    decreases depth, 1, |list|
  {
    if list != [] {
      assert list[0] in list && list[0].id in ToolIds(flat);
      ReadNode(m, flat, list[0], depth);
      ReadList(m, flat, list[1..], depth);
      NodesCons(m, list);
      ReadAllCons(m.Values, m[list[0].id], NodesOf(m, list[1..]), depth);
    }
  }

  lemma ItemsCons(m: ToolMap, list: seq<UiBlock>)
    requires list != []
    ensures ItemsOf(m, list) == [ItemOf(m, list[0])] + ItemsOf(m, list[1..])
  {
    assert list == [list[0]] + list[1..];
    ItemsConcat(m, [list[0]], list[1..]);
    assert [list[0]][..0] == [];
    assert ItemsOf(m, [list[0]]) == ItemsOf(m, []) + [ItemOf(m, list[0])];
  }

  lemma ReadItemsCons(nodes: set<ToolNode>, first: Item, rest: seq<Item>, depth: nat)
    ensures ReadItems(nodes, [first] + rest, depth) == [ReadItem(nodes, first, depth)] + ReadItems(nodes, rest, depth)
  {
    assert ([first] + rest)[1..] == rest;
  }

  lemma {:induction false} ReadTop(m: ToolMap, flat: seq<UiBlock>, list: seq<UiBlock>, depth: nat)
    requires Represents(m, flat) && forall c :: c in list ==> c in flat
    ensures ReadItems(m.Values, ItemsOf(m, list), depth) == NodesAt(flat, list, depth)
    decreases |list|
  {
    if list != [] {
      var c := list[0];
      assert c in flat;
      ReadTop(m, flat, list[1..], depth);
      ItemsCons(m, list);
      ReadItemsCons(m.Values, ItemOf(m, c), ItemsOf(m, list[1..]), depth);
      if c.UiTool? {
        assert c.id in ToolIds(flat);
        ReadNode(m, flat, c, depth);
      }
    }
  }

  lemma NoEmptyLists(m: ToolMap, flat: seq<UiBlock>)
    requires Represents(m, flat)
    ensures forall id :: id in m ==> m[id].children != Some([])
  {
    forall id | id in m ensures m[id].children != Some([]) {
      StrippedNotEmpty(Some(Kids(m, flat)[id]));
    }
  }

  lemma StrippedNotEmpty(children: Option<seq<ToolNode>>)
    ensures NonEmpty(children) != Some([])
  {
  }

  /** The builder: for every list, a reader that follows `children` to any depth sees what the list
      means to that depth; to the depth of the number of calls, its forest. */
  method BuildBlockTree(flat: seq<UiBlock>) returns (tree: seq<Item>, ghost m: ToolMap)
    ensures forall id :: id in m ==> fresh(m[id])
    ensures Represents(m, flat) && tree == ItemsOf(m, TopBlocks(flat, ToolIds(flat)))
    ensures forall id :: id in m ==> m[id].children != Some([])
    ensures forall depth: nat ::
      ReadItems(m.Values, tree, depth) == NodesAt(flat, TopBlocks(flat, ToolIds(flat)), depth)
    ensures ReadItems(m.Values, tree, |ToolIds(flat)|) == Forest(flat)
  {
    var toolMap := CloneTools(flat);
    tree := NestTools(flat, toolMap);
    StripEmpty(toolMap);
    m := toolMap;
    NoEmptyLists(m, flat);
    TopInside(flat, ToolIds(flat));
    forall depth: nat
      ensures ReadItems(m.Values, tree, depth) == NodesAt(flat, TopBlocks(flat, ToolIds(flat)), depth)
    {
      ReadTop(m, flat, TopBlocks(flat, ToolIds(flat)), depth);
    }
  }
}
