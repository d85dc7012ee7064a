/** The workflow object itself (workflow-worker/worker/workflows/workflow_run.py): its fields,
    its signal handler, and `run` with the loops of the source. Points where the coroutine
    waits let node tasks advance in any order and the cancel signal arrive. Every execution is
    proved to be a run of the step machine, so what holds of runs holds of this code. */
module WorkflowRuns {
  import opened Common
  import opened Dag
  import opened Engine
  import opened Readings
  import opened Safety
  import opened Pinned
  import opened Outcomes
  import opened Termination
  import opened Traces
  import opened Persistence
  import opened Records

  /** The list comprehensions of dag.py and the sets of the step machine agree. */
  lemma NeighboursMatch(g: Graph, id: NodeId)
    requires EdgesInside(g)
    ensures Elements(UpstreamOf(id, g.edges)) == Upstream(g, id)
    ensures Elements(DownstreamOf(id, g.edges)) == Downstream(g, id)
  {
    forall n
      ensures n in UpstreamOf(id, g.edges) <==> n in Upstream(g, id)
      ensures n in DownstreamOf(id, g.edges) <==> n in Downstream(g, id)
    {
      NeighboursAreEdges(id, n, g.edges);
      if Edge(n, id) in g.edges { assert EdgeKnown(Edge(n, id), g.nodes.Keys); }
      if Edge(id, n) in g.edges { assert EdgeKnown(Edge(id, n), g.nodes.Keys); }
    }
  }

  lemma AllIn(ids: seq<NodeId>, a: set<NodeId>, b: set<NodeId>)
    ensures (forall u | u in ids :: u in a || u in b) <==> Elements(ids) <= a + b
  {
    if Elements(ids) <= a + b {
      forall u | u in ids ensures u in a || u in b { assert u in Elements(ids); }
    }
  }

  /** Edges and plan entries stay within the known nodes. */
  ghost predicate Inside(g: Graph) {
    EdgesInside(g) && forall k :: 0 <= k < |g.plan| ==> g.plan[k].id in g.nodes
  }

  function PlanErrorText(e: PlanError): string {
    match e
    case UnknownNode(s, t) => "Edge references unknown node: " + IdText(s) + " -> " + IdText(t)
    case GraphHasCycle => "Workflow graph has a cycle"
  }

  function IdText(id: NodeId): string {
    match id
    case NoId => "None"
    case Id(name) => name
  }

  /** What starting and ending a task leaves alone, and that it is progress. */
  ghost predicate Advances(s: State, id: NodeId, s': State) {
    && s'.phase == s.phase && s'.remaining == s.remaining
    && id in s.tasks && id in s'.tasks && s'.tasks == s.tasks[id := s'.tasks[id]]
    && Progress(s'.tasks[id]) > Progress(s.tasks[id])
  }

  lemma StartAdvances(g: Graph, s: State, id: NodeId, s': State)
    requires Enabled(g, s, Start(id)) && s' == Apply(g, s, Start(id))
    ensures Advances(s, id, s')
  {
  }

  lemma FinishAdvances(g: Graph, s: State, id: NodeId, outcome: Outcome, s': State)
    requires Enabled(g, s, Finish(id, outcome)) && s' == Apply(g, s, Finish(id, outcome))
    ensures Advances(s, id, s')
  {
  }

  class WorkflowRun {
    const graph: Graph
    const carried: map<NodeId, Json>
    const store: RunStore
    var context: map<NodeId, Json>
    var completed: set<NodeId>
    var skipped: set<NodeId>
    var remaining: set<NodeId>
    var tasks: map<NodeId, Task>
    var failure: Option<string>
    var cancelled: bool
    var clock: nat
    ghost var phase: Phase
    ghost var log: seq<Write>
    ghost var history: Run

    ghost function Input(): RunInput {
      RunInput(graph, carried)
    }

    ghost function View(): State
      reads this
    {
      State(phase, carried, context, completed, skipped, remaining, tasks, failure, cancelled, log)
    }

    /** The fields are those of the last state of a run, and the rows those its writes produce. */
    ghost predicate Valid()
      reads this, store
    {
      && Inside(graph)
      && IsRun(Input(), history) && Last(history) == View()
      && store.View() == Replay(log) && clock == |log|
      && remaining <= graph.nodes.Keys
    }

    constructor (graph: Graph, carried: map<NodeId, Json>, store: RunStore)
      requires Inside(graph) && store.View() == Inserted()
      modifies store
      ensures Valid() && View() == Init(carried)
      ensures this.graph == graph && this.carried == carried && this.store == store
    {
      this.graph, this.carried, this.store := graph, carried, store;
      context, completed, skipped, remaining, tasks := map[], {}, {}, {}, map[];
      failure, cancelled := None, false;
      phase, log, clock := Carrying(0), [RunWrite(RunRunning, None)], 1;
      history := Run([], [Init(carried)]);
      new;
      store.SetRunStatus(RunRunning, None, 0);
      assert [RunWrite(RunRunning, None)] == [] + [RunWrite(RunRunning, None)];
      ReplaySnoc([], RunWrite(RunRunning, None));
    }

    /** Record that the fields now hold the state after event `e`. */
    ghost method Happened(e: Event, before: State)
      requires Inside(graph) && IsRun(Input(), history) && Last(history) == before
      requires Step(graph, before, e, View())
      requires store.View() == Replay(log) && clock == |log| && remaining <= graph.nodes.Keys
      modifies this`history
      ensures Valid()
    {
      ExtendRun(Input(), history, e, View());
      history := Run(history.events + [e], history.states + [View()]);
    }

    method WriteNode(id: NodeId, status: NodeStatus, input: Option<map<NodeId, Json>>, output: Json,
                     error: Option<string>)
      requires store.View() == Replay(log) && clock == |log|
      modifies this`log, this`clock, store
      ensures log == old(log) + [NodeWrite(id, status, input, output, error)]
      ensures store.View() == Replay(log) && clock == |log|
    {
      store.SetNodeStatus(id, status, input, output, error, clock);
      ReplaySnoc(log, NodeWrite(id, status, input, output, error));
      log, clock := log + [NodeWrite(id, status, input, output, error)], clock + 1;
    }

    /** The cancel signal. Cancelling the active tasks only enables their Stopped outcomes. */
    method CancelSignal()
      requires Valid() && !phase.Ended?
      modifies this
      ensures Valid() && View() == Apply(graph, old(View()), Cancel)
    {
      cancelled := true;
      Happened(Cancel, old(View()));
    }

    method MaybeCancel()
      requires Valid() && !phase.Ended?
      modifies this
      ensures Valid() && View() == old(View()).(cancelled := cancelled)
    {
      if * {
        CancelSignal();
      }
    }

    /** The node has an output and is completed; a false condition marks its successors one by one. */
    method MarkCompleted(id: NodeId, output: Json)
      requires Inside(graph) && id in graph.nodes
      modifies this`context, this`completed, this`skipped
      ensures View() == Complete(graph, old(View()), id, output)
    {
      context := context[id := output];
      completed := completed + {id};
      if FalseCondition(graph.nodes[id], output) {
        var successors := DownstreamOf(id, graph.edges);
        for k := 0 to |successors|
          invariant skipped == old(skipped) + Elements(successors[..k])
          invariant context == old(context)[id := output] && completed == old(completed) + {id}
        {
          assert successors[..k + 1] == successors[..k] + [successors[k]];
          skipped := skipped + {successors[k]};
        }
        assert successors[..|successors|] == successors;
        NeighboursMatch(graph, id);
      }
    }

    method CarryOutput(id: NodeId)
      requires Inside(graph) && id in graph.nodes && id in carried
      requires store.View() == Replay(log) && clock == |log|
      modifies this`context, this`completed, this`skipped, this`log, this`clock, store
      ensures store.View() == Replay(log) && clock == |log|
      ensures log == old(log) + [NodeWrite(id, NodeCompleted, None, carried[id], None)]
      ensures View() == Complete(graph, old(View()).(log := log), id, carried[id])
    {
      WriteNode(id, NodeCompleted, None, carried[id], None);
      MarkCompleted(id, carried[id]);
    }

    method CarryNode(k: nat)
      requires Valid() && phase == Carrying(k) && k < |graph.plan|
      modifies this, store
      ensures Valid() && View() == Apply(graph, old(View()), CarryNext)
    {
      var id := graph.plan[k].id;
      phase := Carrying(k + 1);
      if id in carried {
        CarryOutput(id);
      }
      assert View() == CarryStep(graph, old(View()));
      Happened(CarryNext, old(View()));
    }

    method SkipTask(id: NodeId)
      requires Valid() && Enabled(graph, View(), Start(id)) && (cancelled || id in skipped)
      modifies this, store
      ensures Valid() && View() == StartStep(graph, old(View()), id)
    {
      WriteNode(id, NodeSkipped, None, Null, None);
      tasks := tasks[id := Finished(Stopped)];
      Happened(Start(id), old(View()));
    }

    method ReadInputs(id: NodeId) returns (inputs: map<NodeId, Json>)
      requires Inside(graph)
      ensures inputs == InputsOf(graph, context, id)
    {
      var upstream := UpstreamOf(id, graph.edges);
      inputs := map u | u in upstream :: if u in context then context[u] else Null;
      NeighboursMatch(graph, id);
    }

    method DispatchTask(id: NodeId)
      requires Valid() && Enabled(graph, View(), Start(id)) && !cancelled && id !in skipped
      modifies this, store
      ensures Valid() && View() == StartStep(graph, old(View()), id)
    {
      var inputs := ReadInputs(id);
      WriteNode(id, NodeRunning, Some(inputs), Null, None);
      tasks := tasks[id := Dispatched(inputs)];
      Happened(Start(id), old(View()));
    }

    /** `run_node` up to its dispatch: skip, or read the inputs and write "running". */
    method StartTask(id: NodeId)
      requires Valid() && Enabled(graph, View(), Start(id))
      modifies this, store
      ensures Valid() && View() == Apply(graph, old(View()), Start(id))
    {
      if cancelled || id in skipped {
        SkipTask(id);
      } else {
        DispatchTask(id);
      }
    }

    /** What a dispatched task writes when it ends. */
    method EndTask(id: NodeId, outcome: Outcome)
      requires Valid() && Enabled(graph, View(), Finish(id, outcome))
      modifies this, store
      ensures Valid() && View() == Apply(graph, old(View()), Finish(id, outcome))
    {
      match outcome {
        case Returned(output) => WriteNode(id, NodeCompleted, None, output, None);
        case Failed(error) => WriteNode(id, NodeFailed, None, Null, Some(error));
        case Stopped => WriteNode(id, NodeSkipped, None, Null, None);
      }
      tasks := tasks[id := Finished(outcome)];
      assert log == old(log) + [FinishWrite(id, outcome)];
      Happened(Finish(id, outcome), old(View()));
    }

    /** `run_node` from its dispatch on: an output, an activity failure, or a cancellation. */
    method FinishTask(id: NodeId)
      requires Valid() && phase.InRound? && id in tasks && tasks[id].Dispatched? && id in graph.nodes
      modifies this, store
      ensures Valid()
      ensures exists outcome :: Enabled(graph, old(View()), Finish(id, outcome))
                                && View() == Apply(graph, old(View()), Finish(id, outcome))
    {
      var outcome: Outcome;
      if * {
        outcome := Returned(graph.f(graph.nodes[id], tasks[id].inputs));
      } else if * {
        var error: string := *;
        outcome := Failed(error);
      } else {
        outcome := Stopped;
      }
      EndTask(id, outcome);
    }

    method TakeOutcome(id: NodeId, outcome: Outcome)
      requires Inside(graph) && id in graph.nodes
      modifies this`failure, this`context, this`completed, this`skipped
      ensures View() == Take(graph, old(View()), id, outcome)
    {
      match outcome
      case Failed(error) => failure := Some(if error == "" then "node failed" else error);
      case Stopped =>
      case Returned(output) =>
        if id !in skipped && output != Null {
          MarkCompleted(id, output);
        }
    }

    /** The body of the collecting loop for one awaited task. */
    method CollectTask(id: NodeId)
      requires Valid() && Enabled(graph, View(), Collect) && id == phase.order[phase.collected]
      modifies this
      ensures Valid() && View() == Apply(graph, old(View()), Collect)
      ensures tasks == old(tasks) && remaining == old(remaining) - {id}
      ensures phase == InRound(old(phase.order), old(phase.collected) + 1)
    {
      remaining := remaining - {id};
      phase := phase.(collected := phase.collected + 1);
      TakeOutcome(id, tasks[id].outcome);
      assert View() == CollectStep(graph, old(View()));
      Happened(Collect, old(View()));
    }

    /** One task of the round takes its next step. */
    method AdvanceTask(id: NodeId)
      requires Valid() && phase.InRound? && id in tasks && !tasks[id].Finished? && id in graph.nodes
      modifies this, store
      ensures Valid() && phase == old(phase) && remaining == old(remaining)
      ensures id in tasks && tasks == old(tasks)[id := tasks[id]]
      ensures Progress(tasks[id]) > Progress(old(tasks)[id])
    {
      ghost var before := View();
      if tasks[id].Waiting? {
        StartTask(id);
        StartAdvances(graph, before, id, View());
      } else {
        FinishTask(id);
        ghost var outcome :| Enabled(graph, before, Finish(id, outcome))
                             && View() == Apply(graph, before, Finish(id, outcome));
        FinishAdvances(graph, before, id, outcome, View());
      }
    }

    /** Some unfinished task of the round does. */
    method AdvanceSomeTask(order: seq<NodeId>)
      requires Valid() && phase.InRound? && phase.order == order && NoDuplicates(order)
      requires forall n :: n in tasks <==> n in order
      requires forall n :: n in tasks ==> n in graph.nodes
      requires exists n :: n in tasks && !tasks[n].Finished?
      modifies this, store
      ensures Valid() && phase == old(phase) && tasks.Keys == old(tasks.Keys)
      ensures remaining == old(remaining)
      ensures forall n :: n in tasks && old(tasks)[n].Finished? ==> tasks[n] == old(tasks)[n]
      ensures ProgressOf(tasks, order) > ProgressOf(old(tasks), order)
    {
      var id :| id in tasks && !tasks[id].Finished?;
      ghost var before := tasks;
      AdvanceTask(id);
      AdvanceCounts(before, order, id, tasks[id]);
    }

    /** The nodes of `remaining` all of whose upstreams are completed or skipped, in any order. */
    method ComputeFrontier() returns (frontier: seq<NodeId>)
      requires Inside(graph)
      ensures Enumerates(frontier, Frontier(graph, View()))
    {
      var candidates := Enumerate(remaining);
      frontier := [];
      for k := 0 to |candidates|
        invariant NoDuplicates(frontier)
        invariant forall n :: n in frontier <==> n in candidates[..k] && Settled(graph, View(), n)
      {
        var id := candidates[k];
        var upstream := UpstreamOf(id, graph.edges);
        NeighboursMatch(graph, id);
        var settled := forall u | u in upstream :: u in completed || u in skipped;
        AllIn(upstream, completed, skipped);
        assert id !in frontier;
        assert candidates[..k + 1] == candidates[..k] + [id];
        if settled {
          frontier := frontier + [id];
        }
      }
      assert candidates[..|candidates|] == candidates;
    }

    /** A round in flight: its tasks are those of `frontier`, k of them collected. */
    ghost predicate Awaiting(frontier: seq<NodeId>, k: nat)
      reads this, store
    {
      && Valid() && phase == InRound(frontier, k)
      && (forall n :: n in tasks <==> n in frontier)
      && (forall n :: n in tasks ==> n in graph.nodes)
    }

    /** Waiting for one task: any tasks of the round advance, and the signal may arrive, until the
        awaited one is done. */
    method AwaitTask(frontier: seq<NodeId>, k: nat)
      requires Awaiting(frontier, k) && k < |frontier| && NoDuplicates(frontier)
      modifies this, store
      ensures Awaiting(frontier, k) && remaining == old(remaining)
      ensures frontier[k] in tasks && tasks[frontier[k]].Finished?
    {
      assert frontier[k] in frontier;
      while true
        invariant Awaiting(frontier, k) && remaining == old(remaining)
        decreases 2 * |frontier| - ProgressOf(tasks, frontier)
      {
        MaybeCancel();
        if tasks[frontier[k]].Finished? {
          if * { break; }
          if forall n | n in tasks :: tasks[n].Finished? { break; }
        }
        AdvanceSomeTask(frontier);
        ProgressBound(tasks, frontier);
      }
    }

    /** One waiting task for each node of the frontier. */
    method CreateTasks(frontier: seq<NodeId>)
      requires Valid() && Enabled(graph, View(), OpenRound(frontier))
      modifies this
      ensures Awaiting(frontier, 0) && remaining == old(remaining)
    {
      assert forall n :: n in frontier ==> n in Frontier(graph, View());
      tasks := map id | id in frontier :: Waiting;
      phase := InRound(frontier, 0);
      Happened(OpenRound(frontier), old(View()));
    }

    method DiscardTasks(frontier: seq<NodeId>)
      requires Awaiting(frontier, |frontier|)
      modifies this
      ensures Valid() && phase == Deciding && remaining == old(remaining)
    {
      tasks := map[];
      phase := Deciding;
      Happened(CloseRound, old(View()));
    }

    /** The next task of the round is awaited and collected. */
    method CollectNext(frontier: seq<NodeId>, k: nat)
      requires Awaiting(frontier, k) && k < |frontier| && NoDuplicates(frontier)
      modifies this, store
      ensures Awaiting(frontier, k + 1) && remaining == old(remaining) - {frontier[k]}
    {
      AwaitTask(frontier, k);
      CollectTask(frontier[k]);
    }

    method CollectRound(frontier: seq<NodeId>)
      requires Awaiting(frontier, 0) && NoDuplicates(frontier)
      modifies this, store
      ensures Awaiting(frontier, |frontier|)
      ensures remaining <= old(remaining) && forall i :: 0 <= i < |frontier| ==> frontier[i] !in remaining
    {
      for k := 0 to |frontier|
        invariant Awaiting(frontier, k)
        invariant remaining <= old(remaining) && forall i :: 0 <= i < k ==> frontier[i] !in remaining
      {
        CollectNext(frontier, k);
      }
    }

    /** One round: create the tasks, then await and collect them in order. */
    method RunRound(frontier: seq<NodeId>)
      requires Valid() && Enabled(graph, View(), OpenRound(frontier))
      modifies this, store
      ensures Valid() && phase == Deciding
      ensures remaining <= old(remaining) && forall n :: n in frontier ==> n !in remaining
    {
      CreateTasks(frontier);
      CollectRound(frontier);
      DiscardTasks(frontier);
    }

    method SkipOne(id: NodeId, left: seq<NodeId>)
      requires Valid() && phase.Draining? && phase.left == left && left != [] && left[0] == id
      modifies this, store
      ensures Valid() && phase == Draining(left[1..], old(phase.verdict))
      ensures remaining == old(remaining) && failure == old(failure)
    {
      WriteNode(id, NodeSkipped, None, Null, None);
      phase := Draining(left[1..], phase.verdict);
      Happened(DrainOne, old(View()));
    }

    /** Writes "skipped" for each node that is left. */
    method SkipRemaining(left: seq<NodeId>)
      requires Valid() && phase.Draining? && phase.left == left
      modifies this, store
      ensures Valid() && phase == Draining([], old(phase.verdict))
      ensures remaining == old(remaining) && failure == old(failure)
    {
      for k := 0 to |left|
        invariant Valid() && phase == Draining(left[k..], old(phase.verdict))
        invariant remaining == old(remaining) && failure == old(failure)
      {
        MaybeCancel();
        assert left[k..][1..] == left[k + 1..];
        SkipOne(left[k], left[k..]);
      }
    }

    method WriteVerdict(status: RunStatus)
      requires Valid() && phase == Draining([], status)
      requires status == RunFailed ==> failure.Some?
      modifies this, store
      ensures Valid() && phase == Ended(status)
    {
      var message := if status == RunFailed then failure else None;
      store.SetRunStatus(status, message, clock);
      ReplaySnoc(log, RunWrite(status, message));
      log, clock := log + [RunWrite(status, message)], clock + 1;
      if status == RunFailed {
        remaining := {};
      }
      phase := Ended(status);
      Happened(Conclude, old(View()));
    }

    /** Carried nodes start completed; `remaining` is the rest of the plan. */
    method CarryAll()
      requires Valid() && View() == Init(carried)
      modifies this, store
      ensures Valid() && phase == Deciding
    {
      for k := 0 to |graph.plan|
        invariant Valid() && phase == Carrying(k)
      {
        MaybeCancel();
        CarryNode(k);
      }
      label L:
      remaining := graph.nodes.Keys - completed;
      phase := Deciding;
      Happened(BeginRounds, old@L(View()));
    }

    /** The loop over rounds. */
    method RunRounds()
      requires Valid() && phase == Deciding
      modifies this, store
      ensures Valid() && phase == Deciding && LoopOver(graph, View())
    {
      while remaining != {} && failure.None? && !cancelled
        invariant Valid() && phase == Deciding
        decreases |remaining|
      {
        var frontier := ComputeFrontier();
        if frontier == [] {
          assert forall n :: n in Frontier(graph, View()) ==> n in frontier;
          return;
        }
        assert frontier[0] in frontier && frontier[0] in Frontier(graph, View());
        ghost var before := remaining;
        RunRound(frontier);
        assert frontier[0] !in remaining && frontier[0] in before;
        assert before == remaining + (before - remaining);
      }
    }

    /** After the loop: skip what is left, then write the verdict. */
    method EndRun() returns (status: RunStatus)
      requires Valid() && phase == Deciding && LoopOver(graph, View())
      modifies this, store
      ensures Valid() && EndsWith(Input(), history, status)
    {
      status := if failure.Some? then RunFailed else if cancelled then RunCancelled else RunCompleted;
      var left: seq<NodeId> := [];
      if status != RunCompleted {
        left := Enumerate(remaining);
      }
      label M:
      phase := Draining(left, status);
      Happened(LeaveLoop(left), old@M(View()));
      SkipRemaining(left);
      WriteVerdict(status);
    }

    /** `run`, once the plan exists. It always returns, with the status it wrote last, and the
        sequence of its states is a run of the step machine. */
    method Execute() returns (status: RunStatus)
      requires WellFormed(graph) && Valid() && View() == Init(carried)
      modifies this, store
      ensures Valid() && EndsWith(Input(), history, status)
      ensures store.run.status == status
      ensures status == RunCompleted ==> (HoldsPinned(Input(), View()) <==> Lost(graph, View()) == {})
    {
      CarryAll();
      RunRounds();
      status := EndRun();
      RunHasVerdict(Input(), history, status);
      if status == RunCompleted {
        PinnedIffNothingLost(Input(), history);
      }
    }
  }

  /** The run row shows the verdict the run ended with. */
  lemma RunHasVerdict(r: RunInput, run: Run, v: RunStatus)
    requires EndsWith(r, run, v)
    ensures Replay(Last(run).log).run.status == v
  {
    RunTraceThroughout(r, run, |run.events|);
    RunRowShowsTrace(Last(run).log);
  }

  /** Why a definition cannot be planned, in words; an end without an id is printed as None. */
  ghost predicate Explains(def: Definition, message: Option<string>) {
    if EdgesKnown(def) then message == Some("Workflow graph has a cycle")
    else
      exists k :: FirstUnknown(def.edges, NodeIds(def), k)
                  && var (source, target) := (def.edges[k].source, def.edges[k].target);
                  message == Some("Edge references unknown node: " + (if source.Id? then source.name else "None")
                                  + " -> " + (if target.Id? then target.name else "None"))
  }

  method FailRun(message: string, store: RunStore)
    requires store.View() == Inserted()
    modifies store
    ensures store.run.status == RunFailed && store.run.error == Some(message) && store.nodes == map[]
  {
    store.SetRunStatus(RunRunning, None, 0);
    store.SetRunStatus(RunFailed, Some(message), 1);
  }

  /** `nodes_by_id` beside the plan and the edges. */
  method PlannedGraph(def: Definition, plan: seq<PlanNode>, f: NodeFunction) returns (graph: Graph)
    requires IsTopologicalPlan(def, plan) && EdgesKnown(def)
    ensures graph.plan == plan && graph.edges == def.edges && graph.f == f
    ensures WellFormed(graph) && graph.nodes.Keys == NodeIds(def)
  {
    var nodes := map i | 0 <= i < |plan| :: plan[i].id := plan[i];
    graph := Graph(plan, nodes, def.edges, f);
    PlanIsWellFormed(def, graph);
  }

  /** Running a plan: rows are of its nodes only, the carried ones completed with what was carried and
      never started, and the run fails iff a node failed. */
  method RunPlan(def: Definition, plan: seq<PlanNode>, f: NodeFunction, carried: map<NodeId, Json>, store: RunStore)
    returns (status: RunStatus)
    requires IsTopologicalPlan(def, plan) && EdgesKnown(def) && store.View() == Inserted()
    modifies store
    ensures store.run.status == status && status in {RunCompleted, RunFailed, RunCancelled}
    ensures RowsFollow(def, carried, status, store.nodes)
  {
    var graph := PlannedGraph(def, plan, f);
    var run := new WorkflowRun(graph, carried, store);
    status := run.Execute();
    RunEndsTerminal(run.Input(), run.history, status);
    RowsAtEnd(def, run.Input(), run.history, status, store);
  }

  ghost predicate RowsFollow(def: Definition, carried: map<NodeId, Json>, status: RunStatus,
                             rows: map<NodeId, NodeRow>)
  {
    && rows.Keys <= NodeIds(def)
    && (status == RunFailed <==> exists id :: id in rows && rows[id].status == NodeFailed)
    && forall id :: id in carried && id in NodeIds(def) ==>
         id in rows && rows[id].status == NodeCompleted && rows[id].output == carried[id] && rows[id].startedAt == None
  }

  /** Planning and running: a definition that cannot be planned fails its run with the reason and
      without writing any node row; any other is executed. */
  method RunDefinition(def: Definition, f: NodeFunction, carried: map<NodeId, Json>, store: RunStore)
    returns (status: RunStatus)
    requires store.View() == Inserted()
    modifies store
    ensures store.run.status == status && status in {RunCompleted, RunFailed, RunCancelled}
    ensures !EdgesKnown(def) || HasCycle(def.edges) ==>
              status == RunFailed && Explains(def, store.run.error) && store.nodes == map[]
    ensures EdgesKnown(def) && !HasCycle(def.edges) ==> RowsFollow(def, carried, status, store.nodes)
  {
    var planned := BuildTopologicalPlan(def);
    if planned.Failure? {
      FailRun(PlanErrorText(planned.error), store);
      return RunFailed;
    }
    status := RunPlan(def, planned.value, f, carried, store);
  }

  /** The rows of a run that has ended. */
  lemma RowsAtEnd(def: Definition, r: RunInput, run: Run, v: RunStatus, store: RunStore)
    requires WellFormed(r.graph) && EndsWith(r, run, v) && store.View() == Replay(Last(run).log)
    requires r.graph.nodes.Keys == NodeIds(def)
    ensures RowsFollow(def, r.carried, v, store.nodes)
  {
    RowsAreNodes(r, run, |run.events|);
    FailedRunsBlame(r, run, v);
    forall id | id in r.carried && id in NodeIds(def)
      ensures id in store.nodes && store.nodes[id].status == NodeCompleted && store.nodes[id].output == r.carried[id]
              && store.nodes[id].startedAt == None
    {
      CarriedInRows(r, run, v, id);
    }
  }

  lemma RunEndsTerminal(r: RunInput, run: Run, v: RunStatus)
    requires EndsWith(r, run, v)
    ensures v in {RunCompleted, RunFailed, RunCancelled}
  {
    VerdictThroughout(r, run, |run.events|);
  }

  lemma PlanIsWellFormed(def: Definition, g: Graph)
    requires IsTopologicalPlan(def, g.plan) && g.edges == def.edges && EdgesKnown(def)
    requires g.nodes.Keys == set i | 0 <= i < |g.plan| :: g.plan[i].id
    requires forall i :: 0 <= i < |g.plan| ==> g.plan[i].id in g.nodes && g.nodes[g.plan[i].id] == g.plan[i]
    ensures WellFormed(g) && g.nodes.Keys == NodeIds(def)
  {
    forall id ensures id in IdsOf(g.plan) <==> id in g.nodes {
      if id in IdsOf(g.plan) {
        var i :| 0 <= i < |g.plan| && IdsOf(g.plan)[i] == id;
      }
    }
    forall e | e in g.edges ensures EdgeKnown(e, g.nodes.Keys) {
      assert EdgeKnown(e, NodeIds(def));
    }
  }
}
