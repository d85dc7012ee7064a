/** The recursive reading of a workflow graph: what every run of the scheduler should end
    with, stated without frontiers, rounds or interleavings. */
module Readings {
  import opened Common
  import opened Dag
  import opened Engine

  /** A node is skipped, or it has an output. */
  datatype Reading = Skipped | Output(value: Json)

  type Readings = map<NodeId, Reading>

  lemma UpstreamIsEarlier(g: Graph, id: NodeId)
    requires WellFormed(g) && id in g.nodes
    ensures forall u :: u in Upstream(g, id) ==> u in g.nodes && Position(g, u) < Position(g, id)
  {
    var ids, k := IdsOf(g.plan), Position(g, id);
    forall u | u in Upstream(g, id) ensures Position(g, u) < k {
      assert ids[k] == id && u in ids[..k];
      var j :| 0 <= j < k && ids[j] == u;
      assert ids[Position(g, u)] == u;
    }
  }

  // ---------- readings as solutions of local equations ----------

  ghost predicate FalseReading(g: Graph, rd: Readings, u: NodeId) {
    u in rd && rd[u].Output? && u in g.nodes && FalseCondition(g.nodes[u], rd[u].value)
  }

  ghost predicate Pruned(g: Graph, rd: Readings, id: NodeId) {
    exists u :: u in Upstream(g, id) && FalseReading(g, rd, u)
  }

  ghost function InputsFrom(g: Graph, rd: Readings, id: NodeId): map<NodeId, Json> {
    map u | u in Upstream(g, id) :: if u in rd && rd[u].Output? then rd[u].value else Null
  }

  /** A node is skipped iff some direct upstream condition that itself ran came out false;
      otherwise its output is its function of the upstream outputs, None for skipped ones. */
  ghost function ReadNode(g: Graph, rd: Readings, id: NodeId): Reading
    requires id in g.nodes
  {
    if Pruned(g, rd, id) then Skipped else Output(g.f(g.nodes[id], InputsFrom(g, rd, id)))
  }

  ghost predicate ReadsRight(g: Graph, rd: Readings, id: NodeId) {
    id in g.nodes && id in rd && rd[id] == ReadNode(g, rd, id)
  }

  /** `rd` reads the whole graph. */
  ghost predicate IsReading(g: Graph, rd: Readings) {
    && rd.Keys == g.nodes.Keys
    && forall id {:trigger ReadsRight(g, rd, id)} :: id in g.nodes ==> ReadsRight(g, rd, id)
  }

  // ---------- there is exactly one ----------

  /** The reading of the first k nodes of the plan. */
  ghost function ReadPrefix(g: Graph, k: nat): Readings
    requires WellFormed(g) && k <= |g.plan|
  {
    if k == 0 then map[]
    else
      var rd, id := ReadPrefix(g, k - 1), g.plan[k - 1].id;
      rd[id := ReadNode(g, rd, id)]
  }

  ghost function ReadingOf(g: Graph): Readings
    requires WellFormed(g)
  {
    ReadPrefix(g, |g.plan|)
  }

  /** Reading a node needs the readings of its upstreams only. */
  lemma ReadNodeDepends(g: Graph, rd: Readings, rd': Readings, id: NodeId)
    requires id in g.nodes
    requires forall u :: u in Upstream(g, id) ==> u in rd && u in rd' && rd[u] == rd'[u]
    ensures ReadNode(g, rd, id) == ReadNode(g, rd', id)
  {
    assert forall u :: u in Upstream(g, id) ==> (FalseReading(g, rd, u) <==> FalseReading(g, rd', u));
    assert InputsFrom(g, rd, id) == InputsFrom(g, rd', id);
  }

  /** An upstream of the node at position j was read before it. */
  lemma UpstreamWasRead(g: Graph, j: nat, k: nat, u: NodeId)
    requires WellFormed(g) && j < k <= |g.plan| && u in Upstream(g, IdsOf(g.plan)[j])
    ensures u in IdsOf(g.plan)[..k - 1] && u != IdsOf(g.plan)[k - 1]
  {
    var ids := IdsOf(g.plan);
    assert Edge(u, ids[j]).target == ids[j] && u in ids[..j];
    var i :| 0 <= i < j && ids[i] == u;
    assert ids[..k - 1][i] == u;
  }

  /** Reading one more node leaves the nodes before it, and the node itself, read right. */
  lemma StillReadsRight(g: Graph, before: Readings, j: nat, k: nat, after: Readings)
    requires WellFormed(g) && j < k <= |g.plan| && before.Keys == Elements(IdsOf(g.plan)[..k - 1])
    requires j < k - 1 ==> ReadsRight(g, before, g.plan[j].id)
    requires after == before[g.plan[k - 1].id := ReadNode(g, before, g.plan[k - 1].id)]
    ensures ReadsRight(g, after, g.plan[j].id)
  {
    var ids, id := IdsOf(g.plan), g.plan[j].id;
    forall u | u in Upstream(g, id) ensures u in before && before[u] == after[u] {
      UpstreamWasRead(g, j, k, u);
    }
    ReadNodeDepends(g, before, after, id);
    if j < k - 1 {
      assert ids[j] != ids[k - 1];
    }
  }

  /** `rd` reads the first k nodes of the plan. */
  ghost predicate ReadsFirst(g: Graph, rd: Readings, k: nat)
    requires k <= |g.plan|
  {
    && rd.Keys == Elements(IdsOf(g.plan)[..k])
    && forall j :: 0 <= j < k ==> ReadsRight(g, rd, g.plan[j].id)
  }

  lemma FirstElements(ids: seq<NodeId>, k: nat)
    requires 0 < k <= |ids|
    ensures Elements(ids[..k]) == Elements(ids[..k - 1]) + {ids[k - 1]}
  {
    assert ids[..k] == ids[..k - 1] + [ids[k - 1]];
  }

  lemma ReadOneMore(g: Graph, rd: Readings, k: nat)
    requires WellFormed(g) && 0 < k <= |g.plan| && ReadsFirst(g, rd, k - 1)
    ensures ReadsFirst(g, rd[g.plan[k - 1].id := ReadNode(g, rd, g.plan[k - 1].id)], k)
  {
    var after := rd[g.plan[k - 1].id := ReadNode(g, rd, g.plan[k - 1].id)];
    FirstElements(IdsOf(g.plan), k);
    forall j | 0 <= j < k ensures ReadsRight(g, after, g.plan[j].id) {
      StillReadsRight(g, rd, j, k, after);
    }
  }

  lemma ReadsNone(g: Graph)
    ensures ReadsFirst(g, map[], 0)
  {
    assert Elements(IdsOf(g.plan)[..0]) == {};
  }

  lemma {:induction false} ReadPrefixReads(g: Graph, k: nat)
    requires WellFormed(g) && k <= |g.plan|
    ensures ReadsFirst(g, ReadPrefix(g, k), k)
  {
    if k == 0 {
      ReadsNone(g);
    } else {
      ReadPrefixReads(g, k - 1);
      ReadOneMore(g, ReadPrefix(g, k - 1), k);
    }
  }

  lemma {:induction false} ReadingExists(g: Graph)
    requires WellFormed(g)
    ensures IsReading(g, ReadingOf(g))
  {
    ReadPrefixReads(g, |g.plan|);
    assert IdsOf(g.plan)[..|g.plan|] == IdsOf(g.plan);
    forall id | id in g.nodes ensures ReadsRight(g, ReadingOf(g), id) {
      assert g.plan[Position(g, id)].id == id;
    }
  }

  lemma {:induction false} ReadingsAgree(g: Graph, rd: Readings, rd': Readings, id: NodeId)
    requires WellFormed(g) && IsReading(g, rd) && IsReading(g, rd') && id in g.nodes
    ensures rd[id] == rd'[id]
    decreases Position(g, id)
  {
    UpstreamIsEarlier(g, id);
    forall u | u in Upstream(g, id) ensures rd[u] == rd'[u] {
      ReadingsAgree(g, rd, rd', u);
    }
    ReadNodeDepends(g, rd, rd', id);
    assert ReadsRight(g, rd, id) && ReadsRight(g, rd', id);
  }

  /** The equations determine the reading, so it does not depend on the order of the plan
      it was computed along. */
  lemma ReadingIsUnique(g: Graph, rd: Readings)
    requires WellFormed(g) && IsReading(g, rd)
    ensures rd == ReadingOf(g)
  {
    ReadingExists(g);
    forall id | id in g.nodes ensures rd[id] == ReadingOf(g)[id] {
      ReadingsAgree(g, rd, ReadingOf(g), id);
    }
  }

  /** Carried outputs that agree with the reading; a fresh run carries none. */
  ghost predicate Sound(g: Graph, rd: Readings, carried: map<NodeId, Json>) {
    forall id :: id in carried && id in rd ==> rd[id] == Output(carried[id])
  }
}
