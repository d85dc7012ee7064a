/** The scheduler's rules spelled out on edges, kinds and outputs: when a condition prunes, what a
    dispatched node was given, and the equations that the variables of a completed run solve
    (workflow-worker/worker/workflows/workflow_run.py; the condition's dict is made by
    workflow-worker/worker/activities/nodes.py). */
module Conditions {
  import opened Common
  import opened Dag
  import opened Engine
  import opened Readings
  import opened Safety
  import opened Pinned
  import opened Settlements
  import opened Outcomes

  /** A condition prunes on a dict whose "result" is missing or counts as false, and on nothing else. */
  ghost predicate Prunes(node: PlanNode, output: Json) {
    && node.kind == "condition" && output.Dict?
    && ("result" !in output.fields
        || output.fields["result"] in {Null, Bool(false), Num(0), Str(""), List([]), Dict(map[])})
  }

  lemma FalseConditionPrunesOn(node: PlanNode, output: Json)
    ensures FalseCondition(node, output) <==> Prunes(node, output)
  {
  }

  // ---------- single steps ----------

  /** A node completing with an output enters `context`; it marks exactly the targets of its edges
      when it is a condition that prunes on that output, and nothing otherwise. */
  lemma CompletionMarks(g: Graph, s: State, id: NodeId, output: Json, d: NodeId)
    requires EdgesInside(g) && id in g.nodes
    ensures var s' := Complete(g, s, id, output);
      && s'.context == s.context[id := output] && s'.completed == s.completed + {id}
      && (d in s'.skipped <==> d in s.skipped || (Edge(id, d) in g.edges && Prunes(g.nodes[id], output)))
  {
    FalseConditionPrunesOn(g.nodes[id], output);
    if Edge(id, d) in g.edges {
      assert EdgeKnown(Edge(id, d), g.nodes.Keys);
    }
  }

  /** Collecting an output: nothing but the departure from `remaining` if the node was marked or the
      output is None; otherwise a completion. */
  lemma CollectedOutput(g: Graph, s: State, s': State, id: NodeId, output: Json, d: NodeId)
    requires EdgesInside(g) && Step(g, s, Collect, s')
    requires id == s.phase.order[s.phase.collected] && s.tasks[id] == Finished(Returned(output))
    ensures s'.remaining == s.remaining - {id} && s'.failure == s.failure
    ensures id in s.skipped || output == Null ==>
              s'.context == s.context && s'.completed == s.completed && s'.skipped == s.skipped
    ensures id !in s.skipped && output != Null ==>
      && s'.context == s.context[id := output] && s'.completed == s.completed + {id}
      && (d in s'.skipped <==> d in s.skipped || (Edge(id, d) in g.edges && Prunes(g.nodes[id], output)))
  {
    CompletionMarks(g, s, id, output, d);
  }

  /** Collecting a failure records it, in place of any earlier one; collecting a stopped task records
      nothing. Either way the node only leaves `remaining`. */
  lemma CollectedOther(g: Graph, s: State, s': State, id: NodeId, outcome: Outcome)
    requires Step(g, s, Collect, s') && !outcome.Returned?
    requires id == s.phase.order[s.phase.collected] && s.tasks[id] == Finished(outcome)
    ensures s' == s.(phase := InRound(s.phase.order, s.phase.collected + 1), remaining := s.remaining - {id},
                     failure := match outcome
                                case Failed(error) => Some(if error == "" then "node failed" else error)
                                case _ => s.failure)
  {
  }

  /** The carry loop completes the next plan node if it was carried, with what was carried. */
  lemma CarriedNode(g: Graph, s: State, s': State, d: NodeId)
    requires EdgesInside(g) && Step(g, s, CarryNext, s')
    ensures var id := g.plan[s.phase.next].id;
      if id in s.carried then
        && s'.context == s.context[id := s.carried[id]] && s'.completed == s.completed + {id}
        && (d in s'.skipped <==>
              d in s.skipped || (Edge(id, d) in g.edges && Prunes(g.nodes[id], s.carried[id])))
      else s'.context == s.context && s'.completed == s.completed && s'.skipped == s.skipped
  {
    var id := g.plan[s.phase.next].id;
    if id in s.carried {
      CompletionMarks(g, s, id, s.carried[id], d);
    }
  }

  // ---------- what a graph means ----------

  /** What a node is given: an entry for the source of each edge into it, its output or None. */
  ghost predicate Inputs(g: Graph, outputs: map<NodeId, Json>, id: NodeId, m: map<NodeId, Json>) {
    && (forall u :: u in m <==> Edge(u, id) in g.edges)
    && (forall u :: u in m ==> m[u] == if u in outputs then outputs[u] else Null)
  }

  ghost predicate PrunedBy(g: Graph, outputs: map<NodeId, Json>, u: NodeId, id: NodeId) {
    Edge(u, id) in g.edges && u in outputs && u in g.nodes && Prunes(g.nodes[u], outputs[u])
  }

  /** The outputs of a reading. */
  ghost function OutputsOf(rd: Readings): map<NodeId, Json> {
    map u | u in rd && rd[u].Output? :: rd[u].value
  }

  lemma PrunedMeans(g: Graph, rd: Readings, id: NodeId)
    requires EdgesInside(g)
    ensures Pruned(g, rd, id) <==> exists u :: PrunedBy(g, OutputsOf(rd), u, id)
  {
    if Pruned(g, rd, id) {
      var u :| u in Upstream(g, id) && FalseReading(g, rd, u);
      FalseConditionPrunesOn(g.nodes[u], rd[u].value);
      assert PrunedBy(g, OutputsOf(rd), u, id);
    }
    if u :| PrunedBy(g, OutputsOf(rd), u, id) {
      FalseConditionPrunesOn(g.nodes[u], rd[u].value);
      assert u in Upstream(g, id) && FalseReading(g, rd, u);
    }
  }

  lemma InputsAre(g: Graph, outputs: map<NodeId, Json>, id: NodeId)
    requires EdgesInside(g)
    ensures Inputs(g, outputs, id, InputsOf(g, outputs, id))
  {
    forall u ensures u in InputsOf(g, outputs, id) <==> Edge(u, id) in g.edges {
      if Edge(u, id) in g.edges {
        assert EdgeKnown(Edge(u, id), g.nodes.Keys);
      }
    }
  }

  /** In the reading of a graph a node is skipped iff an edge leads to it from a condition whose own
      output prunes; otherwise its output is its function of what its upstreams give it. */
  lemma ReadingMeans(g: Graph, rd: Readings, id: NodeId)
    requires WellFormed(g) && IsReading(g, rd) && id in g.nodes
    ensures rd[id].Skipped? <==> exists u :: PrunedBy(g, OutputsOf(rd), u, id)
    ensures rd[id].Output? ==>
      exists m :: Inputs(g, OutputsOf(rd), id, m) && rd[id] == Output(g.f(g.nodes[id], m))
  {
    assert ReadsRight(g, rd, id);
    PrunedMeans(g, rd, id);
    InputsAre(g, OutputsOf(rd), id);
    assert InputsFrom(g, rd, id) == InputsOf(g, OutputsOf(rd), id);
  }

  // ---------- dispatched nodes ----------

  lemma SettledMeans(g: Graph, s: State, id: NodeId)
    requires EdgesInside(g)
    ensures Settled(g, s, id) <==> forall u :: Edge(u, id) in g.edges ==> u in s.completed || u in s.skipped
  {
    forall u | Edge(u, id) in g.edges ensures u in Upstream(g, id) {
      assert EdgeKnown(Edge(u, id), g.nodes.Keys);
    }
  }

  /** In every state of every run a dispatched node holds what its upstreams give it, and each of
      them is completed or skipped. */
  lemma DispatchedOn(r: RunInput, run: Run, k: nat, id: NodeId)
    requires WellFormed(r.graph) && IsRun(r, run) && k < |run.states| && InFlight(run.states[k], id)
    ensures id in r.graph.nodes && id !in r.carried
    ensures var s := run.states[k];
      && Inputs(r.graph, s.context, id, s.tasks[id].inputs)
      && forall u :: Edge(u, id) in r.graph.edges ==> u in s.completed || u in s.skipped
  {
    var g, s, rd := r.graph, run.states[k], PinnedReading(r.graph, r.carried);
    PinThroughout(r, run, k);
    assert s.phase.InRound?;
    OpenTaskAside(g, rd, s, id);
    SafeInEveryState(r, run, k);
    CarriedAside(g, rd, s);
    SettledDecides(Pin(g, s.carried), rd, Cleared(s), id);
    PinNeighbours(g, s.carried, id);
    assert TaskOk(Pin(g, s.carried), rd, id, s.tasks[id]);
    assert s.tasks[id].inputs == InputsOf(g, s.context, id);
    InputsAre(g, s.context, id);
    SettledMeans(g, s, id);
  }

  // ---------- rounds ----------

  /** A node that is left and whose upstreams are all completed or skipped. */
  ghost predicate Ready(g: Graph, s: State, id: NodeId) {
    id in s.remaining && forall u :: Edge(u, id) in g.edges ==> u in s.completed || u in s.skipped
  }

  lemma FrontierMeans(g: Graph, s: State, id: NodeId)
    requires EdgesInside(g)
    ensures id in Frontier(g, s) <==> Ready(g, s, id)
  {
    SettledMeans(g, s, id);
  }

  /** A round opens only between rounds, without a failure or a cancel, and then with a waiting task for
      each ready node, all of them and no other. */
  lemma RoundOpens(g: Graph, s: State, order: seq<NodeId>, s': State)
    requires EdgesInside(g) && Step(g, s, OpenRound(order), s')
    ensures s.phase == Deciding && s.failure == None && !s.cancelled && order != [] && NoDuplicates(order)
    ensures forall id :: id in order <==> Ready(g, s, id)
    ensures s' == s.(phase := InRound(order, 0), tasks := map id | id in order :: Waiting)
  {
    forall id ensures id in order <==> Ready(g, s, id) {
      FrontierMeans(g, s, id);
    }
    var id :| id in Frontier(g, s);
    assert id in order;
  }

  /** The loop is left exactly when no round can open: nothing is left, a node failed, the run was
      cancelled, or nothing is ready. What is left is then skipped, unless the run completes. */
  lemma LoopLeft(g: Graph, s: State, left: seq<NodeId>)
    requires EdgesInside(g) && s.phase == Deciding
    ensures Enabled(g, s, LeaveLoop(left)) <==>
      && (s.remaining == {} || s.failure.Some? || s.cancelled || forall id :: !Ready(g, s, id))
      && Enumerates(left, if s.failure.Some? || s.cancelled then s.remaining else {})
  {
    forall id ensures id in Frontier(g, s) <==> Ready(g, s, id) {
      FrontierMeans(g, s, id);
    }
    if forall id :: !Ready(g, s, id) {
      assert Frontier(g, s) == {};
    }
  }

  /** The end: a failed run has nothing left, any other leaves its variables as they were. */
  lemma RunConcludes(g: Graph, s: State, s': State)
    requires Step(g, s, Conclude, s')
    ensures s'.remaining == if s.phase.verdict == RunFailed then {} else s.remaining
    ensures s'.context == s.context && s'.completed == s.completed && s'.skipped == s.skipped
    ensures s'.phase == Ended(s.phase.verdict)
  {
  }

  // ---------- a completed run ----------

  /** The equations of node n in the variables of a run, nothing else mentioned. */
  ghost predicate Solves(g: Graph, carried: map<NodeId, Json>, s: State, n: NodeId)
    requires n in g.nodes
  {
    && (n in s.completed <==> n in s.context)
    && (n in s.skipped <==> exists u :: PrunedBy(g, s.context, u, n))
    && (if n in carried then n in s.context && s.context[n] == carried[n] && n !in s.remaining
        else
          && (n in s.remaining <==> exists u :: Edge(u, n) in g.edges && u !in s.completed && u !in s.skipped)
          && (exists m ::
                && Inputs(g, s.context, n, m)
                && (n in s.context <==> n !in s.skipped && n !in s.remaining && g.f(g.nodes[n], m) != Null)
                && (n in s.context ==> s.context[n] == g.f(g.nodes[n], m))))
  }

  lemma MarksAre(r: RunInput, run: Run, k: nat, n: NodeId)
    requires WellFormed(r.graph) && IsRun(r, run) && k < |run.states|
    ensures n in run.states[k].skipped <==> exists u :: PrunedBy(r.graph, run.states[k].context, u, n)
  {
    var g, s := r.graph, run.states[k];
    MarksThroughout(r, run, k);
    if n in s.skipped {
      var u :| u in s.context && u in g.nodes && FalseCondition(g.nodes[u], s.context[u]) && n in Downstream(g, u);
      FalseConditionPrunesOn(g.nodes[u], s.context[u]);
      assert PrunedBy(g, s.context, u, n);
    }
    if u :| PrunedBy(g, s.context, u, n) {
      FalseConditionPrunesOn(g.nodes[u], s.context[u]);
      assert EdgeKnown(Edge(u, n), g.nodes.Keys) && n in Downstream(g, u);
      assert MarkedBy(g, s.context, n);
    }
  }

  /** In every state of every run, whatever it carries, the marked nodes are the targets of the edges
      that leave completed conditions whose output prunes. */
  lemma MarkedThroughout(r: RunInput, run: Run, k: nat)
    requires WellFormed(r.graph) && IsRun(r, run) && k < |run.states|
    ensures forall n :: n in run.states[k].skipped <==> exists u :: PrunedBy(r.graph, run.states[k].context, u, n)
  {
    forall n ensures n in run.states[k].skipped <==> exists u :: PrunedBy(r.graph, run.states[k].context, u, n) {
      MarksAre(r, run, k, n);
    }
  }

  lemma FreeNodeSolves(g: Graph, rd: Readings, s: State, n: NodeId)
    requires WellFormed(g) && PinOk(g, rd, s) && !s.phase.Carrying?
    requires n in g.nodes && n !in s.carried
    requires EndsRight(Pin(g, s.carried), rd, Cleared(s), s.carried, n)
    ensures n in s.remaining <==> exists u :: Edge(u, n) in g.edges && u !in s.completed && u !in s.skipped
    ensures exists m ::
              && Inputs(g, s.context, n, m)
              && (n in s.context <==> n !in s.skipped && n !in s.remaining && g.f(g.nodes[n], m) != Null)
              && (n in s.context ==> s.context[n] == g.f(g.nodes[n], m))
  {
    var pin, m := Pin(g, s.carried), InputsOf(g, s.context, n);
    CarriedAside(g, rd, s);
    PinNeighbours(g, s.carried, n);
    NodeHasItsId(g, n);
    SettledMeans(g, s, n);
    InputsAre(g, s.context, n);
    assert InputsOf(pin, s.context, n) == m;
    if Settled(g, s, n) {
      SettledDecides(pin, rd, Cleared(s), n);
    }
  }

  /** How a completed run ends, whatever it carries and however it interleaved: its variables solve
      the equations of every node, and `context` holds exactly the completed ones. */
  lemma CompletedRunSolves(r: RunInput, run: Run)
    requires WellFormed(r.graph) && EndsWith(r, run, RunCompleted) && Disciplined(run)
    ensures forall n :: n in r.graph.nodes ==> Solves(r.graph, r.carried, Last(run), n)
  {
    var g, s, rd, end := r.graph, Last(run), PinnedReading(r.graph, r.carried), |run.events|;
    PinIsSound(g, r.carried);
    PinThroughout(r, run, end);
    RunIsPinned(r, run);
    forall n | n in g.nodes ensures Solves(g, r.carried, s, n) {
      MarksAre(r, run, end, n);
      CompletedRunEndsRight(PinnedInput(r), rd, ClearedRun(run), n);
      if n in r.carried {
        assert n in s.completed && rd[n] == Output(s.context[n]);
      } else {
        FreeNodeSolves(g, rd, s, n);
      }
    }
  }
}
