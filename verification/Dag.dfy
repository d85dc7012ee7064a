/** Workflow definitions and their topological plan (workflow-worker/worker/dag.py):
    Kahn's algorithm, proved to succeed exactly on acyclic graphs over known nodes. */
module Dag {
  import opened Common

  /** A node id as read from the JSON definition; NoId stands for a missing key. */
  datatype NodeId = NoId | Id(name: string)

  datatype RawNode = RawNode(id: NodeId, kind: string, data: Json)

  datatype Edge = Edge(source: NodeId, target: NodeId)

  datatype Definition = Definition(nodes: seq<RawNode>, edges: seq<Edge>)

  datatype PlanNode = PlanNode(id: NodeId, kind: string, data: Json)

  datatype PlanError = UnknownNode(source: NodeId, target: NodeId) | GraphHasCycle

  // ---------- what a definition means ----------

  ghost function NodeIds(def: Definition): set<NodeId> {
    set n | n in def.nodes :: n.id
  }

  /** A later declaration of the same id replaces an earlier one. */
  ghost function LastDeclared(nodes: seq<RawNode>, id: NodeId): RawNode
    requires exists n :: n in nodes && n.id == id
  {
    if nodes[|nodes| - 1].id == id then nodes[|nodes| - 1]
    else
      assert nodes == nodes[..|nodes| - 1] + [nodes[|nodes| - 1]];
      LastDeclared(nodes[..|nodes| - 1], id)
  }

  function AsPlanNode(raw: RawNode): PlanNode {
    PlanNode(raw.id, raw.kind, if Truthy(raw.data) then raw.data else Dict(map[]))
  }

  function UpstreamOf(id: NodeId, edges: seq<Edge>): seq<NodeId> {
    if edges == [] then []
    else
      var last := edges[|edges| - 1];
      UpstreamOf(id, edges[..|edges| - 1]) + if last.target == id then [last.source] else []
  }

  function DownstreamOf(id: NodeId, edges: seq<Edge>): seq<NodeId> {
    if edges == [] then []
    else
      var last := edges[|edges| - 1];
      DownstreamOf(id, edges[..|edges| - 1]) + if last.source == id then [last.target] else []
  }

  /** Both comprehensions list exactly the ends of the edges at a node. */
  lemma {:induction false} NeighboursAreEdges(id: NodeId, other: NodeId, edges: seq<Edge>)
    ensures other in UpstreamOf(id, edges) <==> Edge(other, id) in edges
    ensures other in DownstreamOf(id, edges) <==> Edge(id, other) in edges
  {
    if edges != [] {
      NeighboursAreEdges(id, other, edges[..|edges| - 1]);
      assert edges == edges[..|edges| - 1] + [edges[|edges| - 1]];
    }
  }

  predicate EdgeKnown(e: Edge, ids: set<NodeId>) {
    e.source in ids && e.target in ids
  }

  ghost predicate EdgesKnown(def: Definition) {
    forall e :: e in def.edges ==> EdgeKnown(e, NodeIds(def))
  }

  ghost predicate IsWalk(edges: seq<Edge>, w: seq<NodeId>) {
    |w| > 0 && forall i :: 0 <= i < |w| - 1 ==> Edge(w[i], w[i + 1]) in edges
  }

  /** A directed cycle; a self-loop is the cycle [n, n]. */
  ghost predicate IsCycle(edges: seq<Edge>, w: seq<NodeId>) {
    |w| > 1 && IsWalk(edges, w) && w[0] == w[|w| - 1]
  }

  ghost predicate HasCycle(edges: seq<Edge>) {
    exists w :: IsCycle(edges, w)
  }

  /** Every edge into a listed node comes from a node listed earlier. */
  ghost predicate Forward(ids: seq<NodeId>, edges: seq<Edge>) {
    forall e, j :: e in edges && 0 <= j < |ids| && ids[j] == e.target ==> e.source in ids[..j]
  }

  function IdsOf(plan: seq<PlanNode>): (ids: seq<NodeId>)
    ensures |ids| == |plan| && forall i :: 0 <= i < |plan| ==> ids[i] == plan[i].id
  {
    seq(|plan|, i requires 0 <= i < |plan| => plan[i].id)
  }

  /** A plan is a permutation of the declared ids with every edge pointing forward,
      each id carrying the kind and data of its last declaration. */
  ghost predicate IsTopologicalPlan(def: Definition, plan: seq<PlanNode>) {
    && Enumerates(IdsOf(plan), NodeIds(def))
    && Forward(IdsOf(plan), def.edges)
    && (forall i :: 0 <= i < |plan| ==> plan[i].id in NodeIds(def)
                                        && plan[i] == AsPlanNode(LastDeclared(def.nodes, plan[i].id)))
  }

  lemma {:induction false} LastPosition(nodes: seq<RawNode>, id: NodeId) returns (k: nat)
    requires exists n :: n in nodes && n.id == id
    ensures k < |nodes| && nodes[k].id == id && forall j :: k < j < |nodes| ==> nodes[j].id != id
    ensures LastDeclared(nodes, id) == nodes[k]
  {
    var front, last := nodes[..|nodes| - 1], nodes[|nodes| - 1];
    assert nodes == front + [last];
    if last.id == id {
      k := |front|;
    } else {
      k := LastPosition(front, id);
      assert forall j :: 0 <= j < |front| ==> nodes[j] == front[j];
    }
  }

  /** A planned node shows the last declaration of its id: its kind, and its data, or an empty dict
      for data that count as false. */
  lemma PlanShowsDeclarations(def: Definition, plan: seq<PlanNode>, i: nat) returns (k: nat)
    requires IsTopologicalPlan(def, plan) && i < |plan|
    ensures k < |def.nodes| && def.nodes[k].id == plan[i].id
    ensures forall j :: k < j < |def.nodes| ==> def.nodes[j].id != plan[i].id
    ensures plan[i].kind == def.nodes[k].kind
    ensures plan[i].data == if Falsy(def.nodes[k].data) then Dict(map[]) else def.nodes[k].data
  {
    assert plan[i].id in NodeIds(def);
    k := LastPosition(def.nodes, plan[i].id);
  }

  // ---------- cycles and orders ----------

  /** In a forward order, a walk that ends at position j starts strictly before it. */
  lemma {:induction false} WalkMovesForward(ids: seq<NodeId>, edges: seq<Edge>, w: seq<NodeId>, j: nat) returns (i: nat)
    requires Forward(ids, edges) && IsWalk(edges, w) && |w| > 1
    requires j < |ids| && ids[j] == w[|w| - 1]
    ensures i < j && ids[i] == w[0]
  {
    var e := Edge(w[|w| - 2], w[|w| - 1]);
    assert e in edges && e.source in ids[..j];
    i :| 0 <= i < j && ids[i] == e.source;
    if |w| > 2 {
      var shorter := w[..|w| - 1];
      assert forall k :: 0 <= k < |shorter| ==> shorter[k] == w[k];
      i := WalkMovesForward(ids, edges, shorter, i);
    }
  }

  /** A topological order exists only when there is no cycle. */
  lemma OrderedGraphIsAcyclic(ids: seq<NodeId>, edges: seq<Edge>)
    requires NoDuplicates(ids) && Forward(ids, edges)
    requires forall e :: e in edges ==> e.target in ids
    ensures !HasCycle(edges)
  {
    forall w | IsCycle(edges, w) ensures false {
      assert Edge(w[|w| - 2], w[|w| - 1]) in edges;
      var j :| 0 <= j < |ids| && ids[j] == w[|w| - 1];
      var i := WalkMovesForward(ids, edges, w, j);
    }
  }

  ghost predicate WaitsFor(n: NodeId, left: set<NodeId>, edges: seq<Edge>) {
    exists p :: p in left && Edge(p, n) in edges
  }

  /** Walking backwards for k steps inside a set where everyone has a predecessor. */
  lemma {:induction false} BackwardWalk(left: set<NodeId>, edges: seq<Edge>, k: nat) returns (w: seq<NodeId>)
    requires left != {}
    requires forall n :: n in left ==> WaitsFor(n, left, edges)
    ensures |w| == k + 1 && IsWalk(edges, w) && forall n :: n in w ==> n in left
  {
    if k == 0 {
      var n :| n in left;
      w := [n];
    } else {
      var rest := BackwardWalk(left, edges, k - 1);
      assert WaitsFor(rest[0], left, edges);
      var p :| p in left && Edge(p, rest[0]) in edges;
      w := [p] + rest;
      assert forall i :: 1 <= i < |w| - 1 ==> w[i] == rest[i - 1] && w[i + 1] == rest[i];
    }
  }

  /** A nonempty set of nodes each waiting for another of the set contains a cycle. */
  lemma WaitingSetHasCycle(left: set<NodeId>, edges: seq<Edge>)
    requires left != {}
    requires forall n :: n in left ==> WaitsFor(n, left, edges)
    ensures HasCycle(edges)
  {
    var w := BackwardWalk(left, edges, |left|);
    if NoDuplicates(w) {
      NoDuplicatesSize(w);
      SubsetSize(Elements(w), left);
      assert false;
    }
    var i, j :| 0 <= i < j < |w| && w[i] == w[j];
    assert IsCycle(edges, w[i..j + 1]);
  }

  lemma SubsetSize<T>(a: set<T>, b: set<T>)
    requires a <= b
    ensures |a| <= |b|
  {
    assert b == a + (b - a);
  }

  // ---------- in-degrees ----------

  /** How many edges into `id` still come from a node not yet listed. */
  ghost function PendingInto(edges: seq<Edge>, listed: seq<NodeId>, id: NodeId): nat {
    if edges == [] then 0
    else
      var last := edges[|edges| - 1];
      PendingInto(edges[..|edges| - 1], listed, id)
      + if last.target == id && last.source !in listed then 1 else 0
  }

  ghost function Count(s: seq<NodeId>, id: NodeId): nat {
    multiset(s)[id]
  }

  lemma CountSnoc(s: seq<NodeId>, last: NodeId, id: NodeId)
    ensures Count(s + [last], id) == Count(s, id) + if id == last then 1 else 0
    ensures id in s <==> Count(s, id) > 0
  {
  }

  lemma {:induction false} PendingZero(edges: seq<Edge>, listed: seq<NodeId>, id: NodeId)
    ensures PendingInto(edges, listed, id) == 0
            <==> forall e :: e in edges && e.target == id ==> e.source in listed
  {
    if edges != [] {
      PendingZero(edges[..|edges| - 1], listed, id);
      assert edges == edges[..|edges| - 1] + [edges[|edges| - 1]];
    }
  }

  /** Listing node `s` releases one pending edge per successor entry of `s`. */
  lemma {:induction false} PendingDrops(edges: seq<Edge>, listed: seq<NodeId>, s: NodeId, id: NodeId)
    requires s !in listed
    ensures PendingInto(edges, listed, id)
            == PendingInto(edges, listed + [s], id) + Count(DownstreamOf(s, edges), id)
  {
    if edges != [] {
      PendingDrops(edges[..|edges| - 1], listed, s, id);
    }
  }

  function Degree(inDeg: map<NodeId, int>, id: NodeId): int {
    if id in inDeg then inDeg[id] else 0
  }

  function Successors(adj: map<NodeId, seq<NodeId>>, id: NodeId): seq<NodeId> {
    if id in adj then adj[id] else []
  }

  // ---------- the algorithm ----------

  /** The nodes by id: ids in order of first appearance, the last declaration of each. */
  method IndexNodes(nodes: seq<RawNode>) returns (order: seq<NodeId>, byId: map<NodeId, RawNode>)
    ensures Enumerates(order, set n | n in nodes :: n.id)
    ensures byId.Keys == set n | n in nodes :: n.id
    ensures forall id :: id in byId ==> byId[id] == LastDeclared(nodes, id)
  {
    order, byId := [], map[];
    for k := 0 to |nodes|
      invariant byId.Keys == set n | n in nodes[..k] :: n.id
      invariant Enumerates(order, byId.Keys)
      invariant forall id :: id in byId ==> byId[id] == LastDeclared(nodes[..k], id)
    {
      var n := nodes[k];
      assert nodes[..k + 1] == nodes[..k] + [n];
      assert nodes[..k + 1][..k] == nodes[..k];
      if n.id !in byId {
        order := order + [n.id];
      }
      byId := byId[n.id := n];
    }
    assert nodes[..|nodes|] == nodes;
  }

  ghost function AdjacencyOf(edges: seq<Edge>): map<NodeId, seq<NodeId>> {
    if edges == [] then map[]
    else
      var adj, e := AdjacencyOf(edges[..|edges| - 1]), edges[|edges| - 1];
      adj[e.source := Successors(adj, e.source) + [e.target]]
  }

  ghost function InDegreesOf(edges: seq<Edge>): map<NodeId, int> {
    if edges == [] then map[]
    else
      var inDeg, e := InDegreesOf(edges[..|edges| - 1]), edges[|edges| - 1];
      inDeg[e.target := Degree(inDeg, e.target) + 1]
  }

  lemma {:induction false} IndexesCount(edges: seq<Edge>, id: NodeId)
    ensures Successors(AdjacencyOf(edges), id) == DownstreamOf(id, edges)
    ensures Degree(InDegreesOf(edges), id) == PendingInto(edges, [], id)
  {
    if edges != [] {
      IndexesCount(edges[..|edges| - 1], id);
    }
  }

  ghost predicate FirstUnknown(edges: seq<Edge>, ids: set<NodeId>, k: int) {
    0 <= k < |edges| && !EdgeKnown(edges[k], ids) && forall i :: 0 <= i < k ==> EdgeKnown(edges[i], ids)
  }

  /** The edge loop: stop at the first edge with an unknown end, else collect successors
      and in-degrees. */
  method IndexEdges(edges: seq<Edge>, ids: set<NodeId>)
    returns (bad: Option<nat>, adj: map<NodeId, seq<NodeId>>, inDeg: map<NodeId, int>)
    ensures bad.Some? ==> FirstUnknown(edges, ids, bad.value)
    ensures bad.None? ==> forall e :: e in edges ==> EdgeKnown(e, ids)
    ensures bad.None? ==> adj == AdjacencyOf(edges) && inDeg == InDegreesOf(edges)
  {
    bad, adj, inDeg := None, map[], map[];
    for k := 0 to |edges|
      invariant forall i :: 0 <= i < k ==> EdgeKnown(edges[i], ids)
      invariant adj == AdjacencyOf(edges[..k]) && inDeg == InDegreesOf(edges[..k])
    {
      var e := edges[k];
      if e.source !in ids || e.target !in ids {
        return Some(k), adj, inDeg;
      }
      assert edges[..k + 1][..k] == edges[..k];
      adj := adj[e.source := Successors(adj, e.source) + [e.target]];
      inDeg := inDeg[e.target := Degree(inDeg, e.target) + 1];
    }
    assert edges[..|edges|] == edges;
  }

  ghost function LowerAll(inDeg: map<NodeId, int>, targets: seq<NodeId>): map<NodeId, int> {
    if targets == [] then inDeg
    else
      var lowered, n := LowerAll(inDeg, targets[..|targets| - 1]), targets[|targets| - 1];
      lowered[n := Degree(lowered, n) - 1]
  }

  lemma {:induction false} LowerAllDegree(inDeg: map<NodeId, int>, targets: seq<NodeId>, n: NodeId)
    ensures Degree(LowerAll(inDeg, targets), n) == Degree(inDeg, n) - Count(targets, n)
  {
    if targets != [] {
      LowerAllDegree(inDeg, targets[..|targets| - 1], n);
      CountSnoc(targets[..|targets| - 1], targets[|targets| - 1], n);
      assert targets == targets[..|targets| - 1] + [targets[|targets| - 1]];
    }
  }

  lemma StillOwed(successors: seq<NodeId>, k: nat, inDeg: map<NodeId, int>)
    requires k < |successors| && Degree(inDeg, successors[k]) >= Count(successors, successors[k])
    ensures Degree(LowerAll(inDeg, successors[..k]), successors[k]) > 0
  {
    var n := successors[k];
    LowerAllDegree(inDeg, successors[..k], n);
    CountSnoc(successors[..k], n, n);
    assert successors == successors[..k] + [n] + successors[k + 1..];
    assert multiset(successors) == multiset(successors[..k] + [n]) + multiset(successors[k + 1..]);
  }

  /** Releasing the successors of a listed node: each entry lowers one in-degree, and the
      nodes whose in-degree reaches zero are handed back, each once, for the queue. */
  method Release(successors: seq<NodeId>, inDeg0: map<NodeId, int>)
    returns (inDeg: map<NodeId, int>, released: seq<NodeId>)
    requires forall n :: n in successors ==> Degree(inDeg0, n) >= Count(successors, n)
    ensures inDeg == LowerAll(inDeg0, successors)
    ensures NoDuplicates(released)
    ensures forall n :: n in released <==> n in successors && Degree(inDeg, n) == 0
  {
    inDeg, released := inDeg0, [];
    for k := 0 to |successors|
      invariant inDeg == LowerAll(inDeg0, successors[..k])
      invariant NoDuplicates(released)
      invariant forall n :: n in released <==> n in successors[..k] && Degree(inDeg, n) == 0
    {
      var n := successors[k];
      assert successors[..k + 1] == successors[..k] + [n];
      assert successors[..k + 1][..k] == successors[..k];
      StillOwed(successors, k, inDeg0);
      inDeg := inDeg[n := Degree(inDeg, n) - 1];
      if inDeg[n] == 0 {
        released := released + [n];
      }
    }
    assert successors[..|successors|] == successors;
  }

  /** The state of the main loop: `ids` is the plan so far, `queue` the nodes all of whose
      predecessors are in it, and `inDeg` counts the edges still to be released. */
  ghost predicate KahnState(edges: seq<Edge>, all: set<NodeId>, ids: seq<NodeId>, queue: seq<NodeId>,
                            inDeg: map<NodeId, int>) {
    && NoDuplicates(ids + queue)
    && (forall n {:trigger Degree(inDeg, n)} {:trigger n in ids + queue} ::
          n in ids + queue <==> n in all && Degree(inDeg, n) == 0)
    && (forall n {:trigger Degree(inDeg, n)} :: Degree(inDeg, n) == PendingInto(edges, ids, n))
    && Forward(ids, edges)
  }

  /** The head of the queue: a fresh known node whose successors are all still waiting. */
  lemma HeadOfQueue(edges: seq<Edge>, all: set<NodeId>, ids: seq<NodeId>, queue: seq<NodeId>, inDeg: map<NodeId, int>)
    requires KahnState(edges, all, ids, queue, inDeg) && queue != []
    ensures queue[0] in all && queue[0] !in ids && |ids| < |all|
    ensures forall n {:trigger Degree(inDeg, n)} {:trigger Count(DownstreamOf(queue[0], edges), n)} ::
              Degree(inDeg, n) == PendingInto(edges, ids + [queue[0]], n) + Count(DownstreamOf(queue[0], edges), n)
  {
    assert (ids + queue)[|ids|] == queue[0];
    assert queue[0] in ids + queue;
    forall k | 0 <= k < |ids| ensures ids[k] != queue[0] {
      assert (ids + queue)[k] == ids[k];
    }
    forall n {
      PendingDrops(edges, ids, queue[0], n);
    }
    assert Elements(ids + queue) <= all;
    NoDuplicatesSize(ids + queue);
    SubsetSize(Elements(ids + queue), all);
  }

  /** What one round of releases does to a single node. */
  lemma KahnNode(edges: seq<Edge>, all: set<NodeId>, ids: seq<NodeId>, queue: seq<NodeId>, inDeg: map<NodeId, int>,
                 released: seq<NodeId>, degree': int, n: NodeId)
    requires forall e :: e in edges ==> EdgeKnown(e, all)
    requires KahnState(edges, all, ids, queue, inDeg) && queue != []
    requires degree' == Degree(inDeg, n) - Count(DownstreamOf(queue[0], edges), n)
    requires n in released <==> n in DownstreamOf(queue[0], edges) && degree' == 0
    ensures degree' == PendingInto(edges, ids + [queue[0]], n)
    ensures n in ids + queue || n in released <==> n in all && degree' == 0
    ensures !(n in ids + queue && n in released)
  {
    HeadOfQueue(edges, all, ids, queue, inDeg);
    NeighboursAreEdges(queue[0], n, edges);
    CountSnoc(DownstreamOf(queue[0], edges), n, n);
    assert n in ids + queue <==> n in all && Degree(inDeg, n) == 0;
  }

  lemma KahnStep(edges: seq<Edge>, all: set<NodeId>, ids: seq<NodeId>, queue: seq<NodeId>, inDeg: map<NodeId, int>,
                 released: seq<NodeId>, inDeg': map<NodeId, int>)
    requires forall e :: e in edges ==> EdgeKnown(e, all)
    requires KahnState(edges, all, ids, queue, inDeg) && queue != []
    requires NoDuplicates(released) && inDeg' == LowerAll(inDeg, DownstreamOf(queue[0], edges))
    requires forall n :: n in released <==> n in DownstreamOf(queue[0], edges) && Degree(inDeg', n) == 0
    ensures KahnState(edges, all, ids + [queue[0]], queue[1..] + released, inDeg')
  {
    var before, now := ids + queue, (ids + [queue[0]]) + (queue[1..] + released);
    assert now == before + released;
    forall n ensures (n in now <==> n in all && Degree(inDeg', n) == 0)
                     && Degree(inDeg', n) == PendingInto(edges, ids + [queue[0]], n)
                     && !(n in before && n in released) {
      LowerAllDegree(inDeg, DownstreamOf(queue[0], edges), n);
      KahnNode(edges, all, ids, queue, inDeg, released, Degree(inDeg', n), n);
    }
    assert NoDuplicates(now) by {
      assert forall i :: 0 <= i < |before| ==> before[i] in before;
      assert forall i :: 0 <= i < |released| ==> released[i] in released;
    }
    HeadOfQueue(edges, all, ids, queue, inDeg);
    assert queue[0] in now;
    ForwardSnoc(edges, ids, queue[0]);
  }

  lemma ForwardSnoc(edges: seq<Edge>, ids: seq<NodeId>, id: NodeId)
    requires Forward(ids, edges) && PendingInto(edges, ids, id) == 0
    ensures Forward(ids + [id], edges)
  {
    PendingZero(edges, ids, id);
    forall e, j | e in edges && 0 <= j < |ids + [id]| && (ids + [id])[j] == e.target
      ensures e.source in (ids + [id])[..j]
    {
      assert (ids + [id])[..j] == ids[..j];
    }
  }

  /** The main loop of Kahn's algorithm: it ends with nothing left to queue. */
  method DrainQueue(edges: seq<Edge>, byId: map<NodeId, RawNode>, adj: map<NodeId, seq<NodeId>>,
                    inDeg0: map<NodeId, int>, queue0: seq<NodeId>) returns (plan: seq<PlanNode>)
    requires forall e :: e in edges ==> EdgeKnown(e, byId.Keys)
    requires adj == AdjacencyOf(edges)
    requires forall id :: id in byId ==> byId[id].id == id
    requires KahnState(edges, byId.Keys, [], queue0, inDeg0)
    ensures exists inDeg :: KahnState(edges, byId.Keys, IdsOf(plan), [], inDeg)
    ensures forall i :: 0 <= i < |plan| ==> plan[i].id in byId && plan[i] == AsPlanNode(byId[plan[i].id])
  {
    plan := [];
    var queue, inDeg := queue0, inDeg0;
    assert IdsOf(plan) == [];
    while queue != []
      invariant KahnState(edges, byId.Keys, IdsOf(plan), queue, inDeg)
      invariant forall i :: 0 <= i < |plan| ==> plan[i].id in byId && plan[i] == AsPlanNode(byId[plan[i].id])
      decreases |byId.Keys| - |plan|
    {
      var id := queue[0];
      HeadOfQueue(edges, byId.Keys, IdsOf(plan), queue, inDeg);
      IndexesCount(edges, id);
      var inDeg', released := Release(Successors(adj, id), inDeg);
      KahnStep(edges, byId.Keys, IdsOf(plan), queue, inDeg, released, inDeg');
      assert IdsOf(plan + [AsPlanNode(byId[id])]) == IdsOf(plan) + [id];
      plan := plan + [AsPlanNode(byId[id])];
      queue, inDeg := queue[1..] + released, inDeg';
    }
  }

  /** Kahn's algorithm. It rejects the first edge with an unknown end; otherwise it returns a
      topological plan when the graph is acyclic and the cycle error exactly when it is not. */
  method BuildTopologicalPlan(def: Definition) returns (r: Result<seq<PlanNode>, PlanError>)
    ensures (r.Failure? && r.error.UnknownNode?) <==> !EdgesKnown(def)
    ensures r.Failure? && r.error.UnknownNode? ==>
              exists k :: FirstUnknown(def.edges, NodeIds(def), k)
                          && def.edges[k] == Edge(r.error.source, r.error.target)
    ensures r == Failure(GraphHasCycle) <==> EdgesKnown(def) && HasCycle(def.edges)
    ensures r.Success? ==> IsTopologicalPlan(def, r.value)
  {
    var edges := def.edges;
    var order, byId := IndexNodes(def.nodes);
    assert byId.Keys == NodeIds(def);
    var bad, adj, inDeg := IndexEdges(edges, byId.Keys);
    if bad.Some? {
      assert edges[bad.value] in edges;
      return Failure(UnknownNode(edges[bad.value].source, edges[bad.value].target));
    }

    var queue := SelectRoots(order, inDeg);
    assert KahnState(edges, byId.Keys, [], queue, inDeg) by {
      assert [] + queue == queue;
      InitialKahnState(edges, order, byId.Keys, queue, inDeg);
    }
    forall id | id in byId ensures byId[id].id == id {
      LastDeclaredHasId(def.nodes, id);
    }
    var plan := DrainQueue(edges, byId, adj, inDeg, queue);
    ghost var inDeg' :| KahnState(edges, byId.Keys, IdsOf(plan), [], inDeg');
    PlanOrCycle(IdsOf(plan), byId.Keys, edges, inDeg');
    if |plan| != |byId| {
      return Failure(GraphHasCycle);
    }
    return Success(plan);
  }

  /** The nodes with no incoming edge, in declaration order. */
  method SelectRoots(order: seq<NodeId>, inDeg: map<NodeId, int>) returns (queue: seq<NodeId>)
    requires NoDuplicates(order)
    ensures NoDuplicates(queue)
    ensures forall n :: n in queue <==> n in order && Degree(inDeg, n) == 0
  {
    queue := [];
    for k := 0 to |order|
      invariant NoDuplicates(queue)
      invariant forall n :: n in queue <==> n in order[..k] && Degree(inDeg, n) == 0
    {
      assert order[..k + 1] == order[..k] + [order[k]];
      if Degree(inDeg, order[k]) == 0 {
        queue := queue + [order[k]];
      }
    }
    assert order[..|order|] == order;
  }

  lemma InitialKahnState(edges: seq<Edge>, order: seq<NodeId>, all: set<NodeId>, queue: seq<NodeId>,
                         inDeg: map<NodeId, int>)
    requires Enumerates(order, all) && inDeg == InDegreesOf(edges)
    requires NoDuplicates(queue) && forall n :: n in queue <==> n in order && Degree(inDeg, n) == 0
    ensures KahnState(edges, all, [], queue, inDeg)
  {
    assert [] + queue == queue;
    forall n ensures Degree(inDeg, n) == PendingInto(edges, [], n) {
      IndexesCount(edges, n);
    }
  }

  lemma {:induction false} LastDeclaredHasId(nodes: seq<RawNode>, id: NodeId)
    requires exists n :: n in nodes && n.id == id
    ensures LastDeclared(nodes, id).id == id && LastDeclared(nodes, id) in nodes
  {
    if nodes[|nodes| - 1].id != id {
      assert nodes == nodes[..|nodes| - 1] + [nodes[|nodes| - 1]];
      LastDeclaredHasId(nodes[..|nodes| - 1], id);
    }
  }

  /** With the queue empty, either every node is listed and the graph is acyclic, or the
      unlisted nodes wait for one another in a circle. */
  lemma PlanOrCycle(ids: seq<NodeId>, all: set<NodeId>, edges: seq<Edge>, inDeg: map<NodeId, int>)
    requires forall e :: e in edges ==> EdgeKnown(e, all)
    requires KahnState(edges, all, ids, [], inDeg)
    ensures |ids| != |all| ==> HasCycle(edges)
    ensures |ids| == |all| ==> Enumerates(ids, all) && !HasCycle(edges)
  {
    assert ids + [] == ids;
    NoDuplicatesSize(ids);
    var left := all - Elements(ids);
    assert all == Elements(ids) + left by {
      forall n | n in Elements(ids) ensures n in all { assert n in ids + []; }
    }
    assert |all| == |ids| + |left|;
    if left == {} {
      OrderedGraphIsAcyclic(ids, edges);
    } else {
      forall n | n in left ensures WaitsFor(n, left, edges) {
        assert Degree(inDeg, n) != 0;
        PendingZero(edges, ids, n);
        var e :| e in edges && e.target == n && e.source !in ids;
        assert e == Edge(e.source, n);
      }
      WaitingSetHasCycle(left, edges);
    }
  }
}
