/** The frontier scheduler of workflow-worker/worker/workflows/workflow_run.py as a step
    machine. A state holds the variables of `run`; an event is one uninterrupted stretch of
    the coroutine, of one node task, or of the cancel signal handler. Tasks of a round may
    interleave in any order, frontier order is arbitrary, and a cancel may arrive anywhere. */
module Engine {
  import opened Common
  import opened Dag

  /** What a node computes from its upstream outputs; an upstream without output reads Null. */
  type NodeFunction = (PlanNode, map<NodeId, Json>) -> Json

  /** A planned definition (`plan`, `nodes_by_id`, `edges`) with the meaning of its nodes. */
  datatype Graph = Graph(plan: seq<PlanNode>, nodes: map<NodeId, PlanNode>, edges: seq<Edge>, f: NodeFunction)

  /** The input of one run: the graph, and the outputs carried over from an earlier run of the
      resume chain (none for a fresh run). */
  datatype RunInput = RunInput(graph: Graph, carried: map<NodeId, Json>)

  datatype RunStatus = RunPending | RunRunning | RunCompleted | RunFailed | RunCancelled

  datatype NodeStatus = NodePending | NodeRunning | NodeCompleted | NodeFailed | NodeSkipped

  /** One persistence write. An output of Null is one that is not stored. */
  datatype Write =
    | RunWrite(run: RunStatus, message: Option<string>)
    | NodeWrite(id: NodeId, status: NodeStatus, input: Option<map<NodeId, Json>>, output: Json, error: Option<string>)

  /** How a node task ends: Stopped covers a node skipped at its start and a cancelled dispatch. */
  datatype Outcome = Returned(output: Json) | Failed(error: string) | Stopped

  datatype Task = Waiting | Dispatched(inputs: map<NodeId, Json>) | Finished(outcome: Outcome)

  datatype Phase =
    | Carrying(next: nat)                                    // copying carried outputs, node by node
    | Deciding                                               // at the loop guard
    | InRound(order: seq<NodeId>, collected: nat)            // tasks created; main awaits order[collected]
    | Draining(left: seq<NodeId>, verdict: RunStatus)        // writing "skipped" for what is left
    | Ended(verdict: RunStatus)

  datatype State = State(
    phase: Phase,
    carried: map<NodeId, Json>,
    context: map<NodeId, Json>,
    completed: set<NodeId>,
    skipped: set<NodeId>,
    remaining: set<NodeId>,
    tasks: map<NodeId, Task>,
    failure: Option<string>,
    cancelled: bool,
    log: seq<Write>)

  datatype Event =
    | CarryNext
    | BeginRounds
    | OpenRound(order: seq<NodeId>)
    | Start(id: NodeId)
    | Finish(id: NodeId, outcome: Outcome)
    | Collect
    | CloseRound
    | LeaveLoop(left: seq<NodeId>)
    | DrainOne
    | Conclude
    | Cancel

  // ---------- the graph ----------

  /** What a successful BuildTopologicalPlan gives the scheduler. */
  ghost predicate WellFormed(g: Graph) {
    && Enumerates(IdsOf(g.plan), g.nodes.Keys)
    && (forall i :: 0 <= i < |g.plan| ==> g.plan[i].id in g.nodes && g.nodes[g.plan[i].id] == g.plan[i])
    && Forward(IdsOf(g.plan), g.edges)
    && EdgesInside(g)
  }

  ghost predicate EdgesInside(g: Graph) {
    forall e :: e in g.edges ==> EdgeKnown(e, g.nodes.Keys)
  }

  ghost function Position(g: Graph, id: NodeId): (k: nat)
    requires WellFormed(g) && id in g.nodes
    ensures k < |g.plan| && g.plan[k].id == id
  {
    assert id in IdsOf(g.plan);
    var k :| 0 <= k < |g.plan| && IdsOf(g.plan)[k] == id;
    k
  }

  ghost function Upstream(g: Graph, id: NodeId): set<NodeId> {
    set u | u in g.nodes && Edge(u, id) in g.edges
  }

  ghost function Downstream(g: Graph, id: NodeId): set<NodeId> {
    set d | d in g.nodes && Edge(id, d) in g.edges
  }

  /** A condition node whose output has no truthy result. */
  predicate FalseCondition(node: PlanNode, output: Json) {
    node.kind == "condition" && output.Dict? && !Truthy(Get(output.fields, "result"))
  }

  // ---------- the steps ----------

  ghost function Init(carried: map<NodeId, Json>): State {
    State(Carrying(0), carried, map[], {}, {}, {}, map[], None, false, [RunWrite(RunRunning, None)])
  }

  ghost predicate Settled(g: Graph, s: State, id: NodeId) {
    Upstream(g, id) <= s.completed + s.skipped
  }

  ghost function Frontier(g: Graph, s: State): set<NodeId> {
    set id | id in s.remaining && Settled(g, s, id)
  }

  /** What a node is given: each upstream with its output, or None when it has none. */
  ghost function InputsOf(g: Graph, context: map<NodeId, Json>, id: NodeId): map<NodeId, Json> {
    map u | u in Upstream(g, id) :: if u in context then context[u] else Null
  }

  function Verdict(s: State): RunStatus {
    if s.failure.Some? then RunFailed else if s.cancelled then RunCancelled else RunCompleted
  }

  function PlainWrite(id: NodeId, status: NodeStatus): Write {
    NodeWrite(id, status, None, Null, None)
  }

  ghost predicate LoopOver(g: Graph, s: State) {
    s.remaining == {} || s.failure.Some? || s.cancelled || Frontier(g, s) == {}
  }

  ghost predicate Enabled(g: Graph, s: State, e: Event) {
    match e
    case CarryNext => s.phase.Carrying? && s.phase.next < |g.plan| && g.plan[s.phase.next].id in g.nodes
    case BeginRounds => s.phase.Carrying? && s.phase.next == |g.plan|
    case OpenRound(order) => s.phase.Deciding? && !LoopOver(g, s) && Enumerates(order, Frontier(g, s))
    case Start(id) => s.phase.InRound? && id in s.tasks && s.tasks[id].Waiting?
    case Finish(id, outcome) =>
      && s.phase.InRound? && id in s.tasks && s.tasks[id].Dispatched? && id in g.nodes
      && (outcome.Returned? ==> outcome.output == g.f(g.nodes[id], s.tasks[id].inputs))
    case Collect =>
      && s.phase.InRound? && s.phase.collected < |s.phase.order|
      && s.phase.order[s.phase.collected] in s.tasks && s.tasks[s.phase.order[s.phase.collected]].Finished?
      && s.phase.order[s.phase.collected] in g.nodes
    case CloseRound => s.phase.InRound? && s.phase.collected == |s.phase.order|
    case LeaveLoop(left) =>
      && s.phase.Deciding? && LoopOver(g, s)
      && Enumerates(left, if Verdict(s) == RunCompleted then {} else s.remaining)
    case DrainOne => s.phase.Draining? && s.phase.left != []
    case Conclude => s.phase.Draining? && s.phase.left == []
    case Cancel => !s.phase.Ended?
  }

  /** A node's output enters `context` and `completed`; a false condition marks its direct
      successors, and only those, as skipped. */
  ghost function Complete(g: Graph, s: State, id: NodeId, output: Json): State
    requires id in g.nodes
  {
    s.(context := s.context[id := output],
       completed := s.completed + {id},
       skipped := if FalseCondition(g.nodes[id], output) then s.skipped + Downstream(g, id) else s.skipped)
  }

  ghost function CarryStep(g: Graph, s: State): State
    requires s.phase.Carrying? && s.phase.next < |g.plan| && g.plan[s.phase.next].id in g.nodes
  {
    var id := g.plan[s.phase.next].id;
    var moved := s.(phase := Carrying(s.phase.next + 1));
    if id !in s.carried then moved
    else
      Complete(g, moved.(log := s.log + [NodeWrite(id, NodeCompleted, None, s.carried[id], None)]), id, s.carried[id])
  }

  ghost function StartStep(g: Graph, s: State, id: NodeId): State {
    if s.cancelled || id in s.skipped then
      s.(tasks := s.tasks[id := Finished(Stopped)], log := s.log + [PlainWrite(id, NodeSkipped)])
    else
      var inputs := InputsOf(g, s.context, id);
      s.(tasks := s.tasks[id := Dispatched(inputs)],
         log := s.log + [NodeWrite(id, NodeRunning, Some(inputs), Null, None)])
  }

  function FinishWrite(id: NodeId, outcome: Outcome): Write {
    match outcome
    case Returned(output) => NodeWrite(id, NodeCompleted, None, output, None)
    case Failed(error) => NodeWrite(id, NodeFailed, None, Null, Some(error))
    case Stopped => PlainWrite(id, NodeSkipped)
  }

  ghost function FinishStep(s: State, id: NodeId, outcome: Outcome): State {
    s.(tasks := s.tasks[id := Finished(outcome)], log := s.log + [FinishWrite(id, outcome)])
  }

  /** A failure is recorded; an output, unless it is None or the node was marked, completes it. */
  ghost function Take(g: Graph, s: State, id: NodeId, outcome: Outcome): State
    requires id in g.nodes
  {
    match outcome
    case Failed(error) => s.(failure := Some(if error == "" then "node failed" else error))
    case Stopped => s
    case Returned(output) => if id in s.skipped || output.Null? then s else Complete(g, s, id, output)
  }

  /** What the awaiting coroutine does with the result of one task. */
  ghost function CollectStep(g: Graph, s: State): State
    requires Enabled(g, s, Collect)
  {
    var id := s.phase.order[s.phase.collected];
    var moved := s.(phase := s.phase.(collected := s.phase.collected + 1), remaining := s.remaining - {id});
    Take(g, moved, id, s.tasks[id].outcome)
  }

  ghost function Apply(g: Graph, s: State, e: Event): State
    requires Enabled(g, s, e)
  {
    match e
    case CarryNext => CarryStep(g, s)
    case BeginRounds => s.(phase := Deciding, remaining := g.nodes.Keys - s.completed)
    case OpenRound(order) => s.(phase := InRound(order, 0), tasks := map id | id in order :: Waiting)
    case Start(id) => StartStep(g, s, id)
    case Finish(id, outcome) => FinishStep(s, id, outcome)
    case Collect => CollectStep(g, s)
    case CloseRound => s.(phase := Deciding, tasks := map[])
    case LeaveLoop(left) => s.(phase := Draining(left, Verdict(s)))
    case DrainOne =>
      s.(phase := s.phase.(left := s.phase.left[1..]), log := s.log + [PlainWrite(s.phase.left[0], NodeSkipped)])
    case Conclude =>
      s.(phase := Ended(s.phase.verdict),
         remaining := if s.phase.verdict == RunFailed then {} else s.remaining,
         log := s.log + [RunWrite(s.phase.verdict, if s.phase.verdict == RunFailed then s.failure else None)])
    case Cancel => s.(cancelled := true)
  }

  ghost predicate Step(g: Graph, s: State, e: Event, s': State) {
    Enabled(g, s, e) && s' == Apply(g, s, e)
  }

  // ---------- runs ----------

  /** A run: the events that happened and the states before, between and after them. */
  datatype Run = Run(events: seq<Event>, states: seq<State>)

  ghost predicate IsRun(r: RunInput, run: Run) {
    && |run.states| == |run.events| + 1
    && run.states[0] == Init(r.carried)
    && forall i :: 0 <= i < |run.events| ==> Step(r.graph, run.states[i], run.events[i], run.states[i + 1])
  }

  ghost function Last(run: Run): State
    requires run.states != []
  {
    run.states[|run.states| - 1]
  }

  ghost predicate EndsWith(r: RunInput, run: Run, verdict: RunStatus) {
    IsRun(r, run) && Last(run).phase == Ended(verdict)
  }

  lemma ExtendRun(r: RunInput, run: Run, e: Event, s: State)
    requires IsRun(r, run) && Step(r.graph, Last(run), e, s)
    ensures IsRun(r, Run(run.events + [e], run.states + [s]))
  {
    var longer := Run(run.events + [e], run.states + [s]);
    forall i | 0 <= i < |longer.events|
      ensures Step(r.graph, longer.states[i], longer.events[i], longer.states[i + 1])
    {
      if i < |run.events| {
        assert Step(r.graph, run.states[i], run.events[i], run.states[i + 1]);
      }
    }
  }

  ghost predicate NoCancel(run: Run) {
    Cancel !in run.events
  }

  ghost predicate NoFailure(run: Run) {
    forall e :: e in run.events && e.Finish? ==> !e.outcome.Failed?
  }

  /** Cancelled dispatches occur only once the cancel signal has arrived. */
  ghost predicate Disciplined(run: Run) {
    forall i :: 0 <= i < |run.events| && i < |run.states| && run.events[i].Finish? && run.events[i].outcome.Stopped?
                ==> run.states[i].cancelled
  }
}
