/** The statuses a run writes: for each node one of five shapes, for the run "running" and
    then one verdict, which is the last write of all. */
module Traces {
  import opened Common
  import opened Dag
  import opened Engine
  import opened Readings
  import opened Safety
  import opened Pinned
  import opened Settlements
  import opened Outcomes

  /** The statuses written for one node, in order. */
  ghost function Statuses(log: seq<Write>, id: NodeId): seq<NodeStatus> {
    if log == [] then []
    else
      var w := log[|log| - 1];
      Statuses(log[..|log| - 1], id) + if w.NodeWrite? && w.id == id then [w.status] else []
  }

  ghost function RunStatuses(log: seq<Write>): seq<RunStatus> {
    if log == [] then []
    else
      var w := log[|log| - 1];
      RunStatuses(log[..|log| - 1]) + if w.RunWrite? then [w.run] else []
  }

  lemma StatusesSnoc(log: seq<Write>, w: Write, id: NodeId)
    ensures Statuses(log + [w], id) == Statuses(log, id) + if w.NodeWrite? && w.id == id then [w.status] else []
    ensures RunStatuses(log + [w]) == RunStatuses(log) + if w.RunWrite? then [w.run] else []
  {
    assert (log + [w])[..|log|] == log;
  }

  /** A finished node's statuses: carried, skipped without running, or run to one of three ends. */
  ghost predicate FullTrace(t: seq<NodeStatus>) {
    || t == [NodeCompleted]
    || t == [NodeSkipped]
    || t == [NodeRunning, NodeCompleted]
    || t == [NodeRunning, NodeFailed]
    || t == [NodeRunning, NodeSkipped]
  }

  ghost predicate FitsTask(t: seq<NodeStatus>, task: Task) {
    match task
    case Waiting => t == []
    case Dispatched(_) => t == [NodeRunning]
    case Finished(Returned(_)) => t == [NodeRunning, NodeCompleted]
    case Finished(Failed(_)) => t == [NodeRunning, NodeFailed]
    case Finished(Stopped) => t == [NodeSkipped] || t == [NodeRunning, NodeSkipped]
  }

  /** Still in `remaining` and not yet reached by the writes after the loop. */
  ghost predicate Untouched(s: State, id: NodeId) {
    id in s.remaining &&
    match s.phase
    case Draining(left, v) => id in left || v == RunCompleted
    case Ended(v) => v == RunCompleted
    case _ => true
  }

  /** `t`, the statuses of a node so far, fits the state. */
  ghost predicate TraceFits(rd: Readings, s: State, id: NodeId, t: seq<NodeStatus>)
    requires id in rd
  {
    && (NodeRunning in t || NodeCompleted in t ==> rd[id].Output?)
    && (id in s.completed ==> t != [] && t[|t| - 1] == NodeCompleted)
    && (if s.phase.Carrying? then t == if id in s.completed then [NodeCompleted] else []
        else if id in s.carried then t == [NodeCompleted]
        else if id in s.tasks then FitsTask(t, s.tasks[id])
        else if Untouched(s, id) then t == []
        else FullTrace(t))
  }

  ghost predicate RunTraceOk(s: State) {
    match s.phase
    case Ended(v) =>
      && RunStatuses(s.log) == [RunRunning, v]
      && s.log[|s.log| - 1] == RunWrite(v, if v == RunFailed then s.failure else None)
    case _ => RunStatuses(s.log) == [RunRunning]
  }

  // ---------- each step keeps the traces ----------

  /** What one event appends to the log. */
  ghost function Appended(g: Graph, s: State, e: Event): Option<Write>
    requires Enabled(g, s, e)
  {
    match e
    case CarryNext =>
      var id := g.plan[s.phase.next].id;
      if id in s.carried then Some(NodeWrite(id, NodeCompleted, None, s.carried[id], None)) else None
    case Start(id) =>
      if s.cancelled || id in s.skipped then Some(PlainWrite(id, NodeSkipped))
      else Some(NodeWrite(id, NodeRunning, Some(InputsOf(g, s.context, id)), Null, None))
    case Finish(id, outcome) => Some(FinishWrite(id, outcome))
    case DrainOne => Some(PlainWrite(s.phase.left[0], NodeSkipped))
    case Conclude => Some(RunWrite(s.phase.verdict, if s.phase.verdict == RunFailed then s.failure else None))
    case _ => None
  }

  lemma LogGrows(g: Graph, s: State, e: Event, s': State)
    requires Step(g, s, e, s')
    ensures s'.log == match Appended(g, s, e) case Some(w) => s.log + [w] case None => s.log
  {
  }

  /** The status one event adds to the trace of one node, if any. */
  ghost function Added(g: Graph, s: State, e: Event, id: NodeId): seq<NodeStatus>
    requires Enabled(g, s, e)
  {
    match Appended(g, s, e)
    case Some(NodeWrite(n, status, _, _, _)) => if n == id then [status] else []
    case _ => []
  }

  lemma {:induction false} StatusesGrow(g: Graph, s: State, e: Event, s': State, id: NodeId)
    requires Step(g, s, e, s')
    ensures Statuses(s'.log, id) == Statuses(s.log, id) + Added(g, s, e, id)
    ensures RunStatuses(s'.log) == RunStatuses(s.log) + if e.Conclude? then [s.phase.verdict] else []
  {
    LogGrows(g, s, e, s');
    if Appended(g, s, e).Some? {
      StatusesSnoc(s.log, Appended(g, s, e).value, id);
    }
  }

  lemma EndsOnlyByConclude(g: Graph, s: State, e: Event, s': State)
    requires Step(g, s, e, s')
    ensures !s.phase.Ended? && (s'.phase.Ended? <==> e.Conclude?)
    ensures e.Conclude? ==>
      && s'.phase == Ended(s.phase.verdict) && s'.failure == s.failure
      && s'.log == s.log + [RunWrite(s.phase.verdict, if s.phase.verdict == RunFailed then s.failure else None)]
  {
  }

  lemma RunTraceKeeps(g: Graph, s: State, e: Event, s': State)
    requires RunTraceOk(s) && Step(g, s, e, s')
    ensures RunTraceOk(s')
  {
    EndsOnlyByConclude(g, s, e, s');
    StatusesGrow(g, s, e, s', NoId);
  }

  /** Starting or finishing a task changes nothing else. */
  lemma TaskStepFrame(g: Graph, s: State, e: Event, s': State)
    requires Step(g, s, e, s') && (e.Start? || e.Finish?)
    ensures s'.phase == s.phase && s'.remaining == s.remaining && s'.completed == s.completed && s'.carried == s.carried
    ensures e.id in s.tasks && !s.tasks[e.id].Finished? && e.id in s'.tasks
    ensures s'.tasks == s.tasks[e.id := s'.tasks[e.id]]
  {
  }

  /** A task's own trace follows it. */
  lemma OwnTaskFits(g: Graph, s: State, e: Event, s': State, t: seq<NodeStatus>)
    requires Step(g, s, e, s') && (e.Start? || e.Finish?) && FitsTask(t, s.tasks[e.id])
    ensures e.id in s'.tasks && FitsTask(t + Added(g, s, e, e.id), s'.tasks[e.id])
    ensures var t' := t + Added(g, s, e, e.id);
      NodeRunning in t' || NodeCompleted in t' ==> NodeRunning in t || s'.tasks[e.id].Dispatched?
  {
  }

  lemma OthersAddNothing(g: Graph, s: State, e: Event, id: NodeId)
    requires Enabled(g, s, e) && (e.Start? || e.Finish?) && e.id != id
    ensures Added(g, s, e, id) == []
  {
  }

  /** A round's events for the tasks: only the node's own task touches its trace. */
  lemma TaskTraceKeeps(g: Graph, rd: Readings, s: State, e: Event, s': State, id: NodeId, t: seq<NodeStatus>)
    requires rd.Keys == g.nodes.Keys && id in g.nodes && TraceFits(rd, s, id, t)
    requires Step(g, s, e, s') && (e.Start? || e.Finish?) && RoundOk(g, rd, s) && TaskOk(g, rd, id, TaskOf(s', id))
    requires CarryOk(g, s) && SetsOk(g, s)
    ensures TraceFits(rd, s', id, t + Added(g, s, e, id))
  {
    TaskStepFrame(g, s, e, s');
    if e.id == id {
      UnfinishedRemains(g, rd, s, id);
      assert id !in s.completed && id !in s.carried;
      OwnTaskFits(g, s, e, s', t);
    } else {
      OthersAddNothing(g, s, e, id);
      assert t + [] == t;
    }
  }

  function TaskOf(s: State, id: NodeId): Task {
    if id in s.tasks then s.tasks[id] else Waiting
  }

  lemma UnfinishedRemains(g: Graph, rd: Readings, s: State, id: NodeId)
    requires rd.Keys == g.nodes.Keys && RoundOk(g, rd, s) && s.phase.InRound?
    requires id in s.tasks && !s.tasks[id].Finished?
    ensures id in s.remaining
  {
    var i :| 0 <= i < |s.phase.order| && s.phase.order[i] == id;
  }

  lemma CollectTraceKeeps(g: Graph, rd: Readings, s: State, s': State, id: NodeId, t: seq<NodeStatus>)
    requires rd.Keys == g.nodes.Keys && id in g.nodes && TraceFits(rd, s, id, t)
    requires Collected(s, s') && RoundOk(g, rd, s) && CarryOk(g, s) && SetsOk(g, s)
    ensures TraceFits(rd, s', id, t)
  {
    var now := s.phase.order[s.phase.collected];
    assert now in s.remaining && now !in s.carried;
    if id == now {
      assert FitsTask(t, s.tasks[id]);
    } else {
      assert (id in s'.completed <==> id in s.completed) && (id in s'.remaining <==> id in s.remaining);
    }
  }

  lemma OpenTraceKeeps(g: Graph, rd: Readings, s: State, e: Event, s': State, id: NodeId, t: seq<NodeStatus>)
    requires rd.Keys == g.nodes.Keys && id in g.nodes && TraceFits(rd, s, id, t)
    requires Step(g, s, e, s') && e.OpenRound? && RoundOk(g, rd, s) && CarryOk(g, s) && SetsOk(g, s)
    ensures TraceFits(rd, s', id, t)
  {
    if id in s'.tasks {
      assert id in Frontier(g, s) && id in s.remaining;
    }
  }

  lemma CloseTraceKeeps(g: Graph, rd: Readings, s: State, s': State, id: NodeId, t: seq<NodeStatus>)
    requires rd.Keys == g.nodes.Keys && id in g.nodes && TraceFits(rd, s, id, t)
    requires Step(g, s, CloseRound, s') && RoundOk(g, rd, s) && CarryOk(g, s)
    ensures TraceFits(rd, s', id, t)
  {
    if id in s.tasks {
      var i :| 0 <= i < |s.phase.order| && s.phase.order[i] == id;
      assert s.tasks[id].Finished? && id !in s.remaining;
    }
  }

  lemma RoundTraceKeeps(g: Graph, rd: Readings, s: State, e: Event, s': State, id: NodeId, t: seq<NodeStatus>)
    requires rd.Keys == g.nodes.Keys && id in g.nodes && TraceFits(rd, s, id, t)
    requires Step(g, s, e, s') && (e.OpenRound? || e.CloseRound?) && RoundOk(g, rd, s) && CarryOk(g, s) && SetsOk(g, s)
    ensures TraceFits(rd, s', id, t + Added(g, s, e, id))
  {
    assert t + [] == t;
    if e.OpenRound? {
      OpenTraceKeeps(g, rd, s, e, s', id, t);
    } else {
      CloseTraceKeeps(g, rd, s, s', id, t);
    }
  }

  lemma CarryTraceKeeps(g: Graph, rd: Readings, s: State, s': State, id: NodeId, t: seq<NodeStatus>)
    requires rd.Keys == g.nodes.Keys && id in g.nodes && TraceFits(rd, s, id, t)
    requires Step(g, s, CarryNext, s') && CarryOk(g, s) && Sound(g, rd, s.carried)
    ensures TraceFits(rd, s', id, t + Added(g, s, CarryNext, id))
  {
    var now := g.plan[s.phase.next].id;
    assert now !in s.completed;
    assert id != now ==> (id in s'.completed <==> id in s.completed);
    assert s'.phase.Carrying?;
  }

  lemma {:induction false} BeginTraceKeeps(g: Graph, rd: Readings, s: State, s': State, id: NodeId, t: seq<NodeStatus>)
    requires WellFormed(g) && rd.Keys == g.nodes.Keys && id in g.nodes && TraceFits(rd, s, id, t)
    requires Step(g, s, BeginRounds, s') && CarryOk(g, s) && RoundOk(g, rd, s)
    ensures TraceFits(rd, s', id, t + Added(g, s, BeginRounds, id))
  {
    assert s'.completed == s.completed && s'.carried == s.carried && s'.tasks == map[];
    assert g.plan[Position(g, id)].id == id;
    assert id in s.completed <==> id in s.carried;
  }

  lemma DrainTraceKeeps(g: Graph, rd: Readings, s: State, s': State, id: NodeId, t: seq<NodeStatus>)
    requires rd.Keys == g.nodes.Keys && id in g.nodes && TraceFits(rd, s, id, t)
    requires Step(g, s, DrainOne, s') && CarryOk(g, s) && SetsOk(g, s) && DrainOk(g, s) && RoundOk(g, rd, s)
    requires VerdictOk(g, s) && (s.phase.verdict == RunCompleted ==> s.phase.left == [])
    ensures TraceFits(rd, s', id, t + Added(g, s, DrainOne, id))
  {
    var now, left := s.phase.left[0], s.phase.left;
    assert left == [now] + left[1..];
    assert now in s.remaining && now !in left[1..];
    assert s'.phase == Draining(left[1..], s.phase.verdict) && s'.remaining == s.remaining;
    assert s'.completed == s.completed && s'.carried == s.carried && s'.tasks == s.tasks == map[];
    assert Untouched(s', id) <==> Untouched(s, id) && id != now;
  }

  lemma EdgeTraceKeeps(g: Graph, rd: Readings, s: State, e: Event, s': State, id: NodeId, t: seq<NodeStatus>)
    requires rd.Keys == g.nodes.Keys && id in g.nodes && TraceFits(rd, s, id, t)
    requires Step(g, s, e, s') && (e.LeaveLoop? || e.Conclude? || e.Cancel?) && RoundOk(g, rd, s)
    ensures TraceFits(rd, s', id, t + Added(g, s, e, id))
  {
    assert Added(g, s, e, id) == [];
    assert s'.completed == s.completed && s'.carried == s.carried && s'.tasks == s.tasks;
    assert !s.phase.Carrying? ==> (Untouched(s', id) <==> Untouched(s, id));
  }

  /** A run found complete has nothing to drain. */
  ghost predicate CompletedDrainsNothing(s: State) {
    s.phase.Draining? && s.phase.verdict == RunCompleted ==> s.phase.left == []
  }

  ghost predicate TraceInv(g: Graph, rd: Readings, s: State)
    requires rd.Keys == g.nodes.Keys
  {
    CarryOk(g, s) && RunTraceOk(s) && VerdictOk(g, s) && CompletedDrainsNothing(s)
    && forall id :: id in rd ==> TraceFits(rd, s, id, Statuses(s.log, id))
  }

  lemma DrainNothingKeeps(g: Graph, s: State, e: Event, s': State)
    requires CompletedDrainsNothing(s) && Step(g, s, e, s')
    ensures CompletedDrainsNothing(s')
  {
    if e.LeaveLoop? && e.left != [] {
      assert e.left[0] in e.left;
    }
  }

  lemma RoundStepTraceKeeps(g: Graph, rd: Readings, s: State, e: Event, s': State, id: NodeId, t: seq<NodeStatus>)
    requires rd.Keys == g.nodes.Keys && id in g.nodes && TraceFits(rd, s, id, t)
    requires Step(g, s, e, s') && (e.Collect? || e.OpenRound? || e.CloseRound?)
    requires CarryOk(g, s) && SetsOk(g, s) && RoundOk(g, rd, s)
    ensures TraceFits(rd, s', id, t + Added(g, s, e, id))
  {
    if e.Collect? {
      CollectFrame(g, s, s');
      CollectTraceKeeps(g, rd, s, s', id, t);
      assert t + [] == t;
    } else {
      RoundTraceKeeps(g, rd, s, e, s', id, t);
    }
  }

  lemma {:induction false} NodeTraceKeeps(g: Graph, rd: Readings, s: State, e: Event, s': State, id: NodeId,
                                          t: seq<NodeStatus>)
    requires WellFormed(g) && rd.Keys == g.nodes.Keys && id in g.nodes && TraceFits(rd, s, id, t)
    requires Step(g, s, e, s') && CarryOk(g, s) && SetsOk(g, s) && RoundOk(g, rd, s) && DrainOk(g, s)
    requires VerdictOk(g, s) && CompletedDrainsNothing(s) && Sound(g, rd, s.carried)
    requires TaskOk(g, rd, id, TaskOf(s', id))
    ensures TraceFits(rd, s', id, t + Added(g, s, e, id))
  {
    if e.Start? || e.Finish? {
      TaskTraceKeeps(g, rd, s, e, s', id, t);
    } else if e.Collect? || e.OpenRound? || e.CloseRound? {
      RoundStepTraceKeeps(g, rd, s, e, s', id, t);
    } else {
      match e
      case CarryNext => CarryTraceKeeps(g, rd, s, s', id, t);
      case BeginRounds => BeginTraceKeeps(g, rd, s, s', id, t);
      case DrainOne => DrainTraceKeeps(g, rd, s, s', id, t);
      case _ => EdgeTraceKeeps(g, rd, s, e, s', id, t);
    }
  }

  lemma {:induction false} TraceStep(g: Graph, rd: Readings, s: State, e: Event, s': State)
    requires WellFormed(g) && Inv(g, rd, s) && TraceInv(g, rd, s) && Step(g, s, e, s')
    ensures TraceInv(g, rd, s')
  {
    StepKeeps(g, rd, s, e, s');
    CarryOkKeeps(g, s, e, s');
    RunTraceKeeps(g, s, e, s');
    VerdictKeeps(g, s, e, s');
    DrainNothingKeeps(g, s, e, s');
    forall id | id in rd ensures TraceFits(rd, s', id, Statuses(s'.log, id)) {
      StatusesGrow(g, s, e, s', id);
      assert TaskOk(g, rd, id, TaskOf(s', id));
      NodeTraceKeeps(g, rd, s, e, s', id, Statuses(s.log, id));
    }
  }

  lemma InitTraces(g: Graph, rd: Readings, carried: map<NodeId, Json>)
    requires rd.Keys == g.nodes.Keys
    ensures TraceInv(g, rd, Init(carried))
  {
    var log := [RunWrite(RunRunning, None)];
    assert log == [] + [log[0]];
    forall id ensures Statuses(log, id) == [] && RunStatuses(log) == [RunRunning] {
      StatusesSnoc([], log[0], id);
    }
  }

  lemma NextTraces(r: RunInput, rd: Readings, run: Run, k: nat)
    requires WellFormed(r.graph) && IsReading(r.graph, rd) && Sound(r.graph, rd, r.carried)
    requires IsRun(r, run) && k < |run.events| && TraceInv(r.graph, rd, run.states[k])
    ensures TraceInv(r.graph, rd, run.states[k + 1])
  {
    RunKeeps(r, rd, run, k);
    assert Step(r.graph, run.states[k], run.events[k], run.states[k + 1]);
    TraceStep(r.graph, rd, run.states[k], run.events[k], run.states[k + 1]);
  }

  lemma {:induction false} TracesThroughout(r: RunInput, rd: Readings, run: Run, k: nat)
    requires WellFormed(r.graph) && IsReading(r.graph, rd) && Sound(r.graph, rd, r.carried)
    requires IsRun(r, run) && k < |run.states|
    ensures TraceInv(r.graph, rd, run.states[k])
  {
    if k == 0 {
      InitTraces(r.graph, rd, r.carried);
    } else {
      TracesThroughout(r, rd, run, k - 1);
      NextTraces(r, rd, run, k - 1);
    }
  }

  /** What a fitting trace is once the run has ended. */
  lemma EndFits(g: Graph, rd: Readings, s: State, v: RunStatus, id: NodeId, t: seq<NodeStatus>)
    requires Inv(g, rd, s) && id in g.nodes && s.phase == Ended(v) && TraceFits(rd, s, id, t)
    requires id in s.carried ==> id in s.completed
    ensures v == RunCompleted && id in s.remaining ==> t == []
    ensures !(v == RunCompleted && id in s.remaining) ==> FullTrace(t)
    ensures id in s.carried ==> t == [NodeCompleted]
    ensures id in s.completed ==> t != [] && t[|t| - 1] == NodeCompleted
    ensures id in s.skipped && id !in s.remaining ==> t == [NodeSkipped]
  {
  }

  lemma SoundTraces(r: RunInput, rd: Readings, run: Run, v: RunStatus, id: NodeId)
    requires WellFormed(r.graph) && IsReading(r.graph, rd) && Sound(r.graph, rd, r.carried)
    requires EndsWith(r, run, v) && id in r.graph.nodes
    ensures v == RunCompleted && id in Last(run).remaining ==> Statuses(Last(run).log, id) == []
    ensures !(v == RunCompleted && id in Last(run).remaining) ==> FullTrace(Statuses(Last(run).log, id))
    ensures id in r.carried ==> Statuses(Last(run).log, id) == [NodeCompleted]
    ensures id in Last(run).completed ==> var t := Statuses(Last(run).log, id); t != [] && t[|t| - 1] == NodeCompleted
    ensures id in Last(run).skipped && id !in Last(run).remaining ==> Statuses(Last(run).log, id) == [NodeSkipped]
  {
    RunKeeps(r, rd, run, |run.events|);
    CarriedThroughout(r, run, |run.events|);
    TracesThroughout(r, rd, run, |run.events|);
    EndFits(r.graph, rd, Last(run), v, id, Statuses(Last(run).log, id));
  }

  /** Every node is written in one of the five shapes, unless the run was reported completed
      with the node stalled; then nothing at all was written for it. Marks on carried nodes are
      not written. */
  lemma EndedTraces(r: RunInput, run: Run, v: RunStatus, id: NodeId)
    requires WellFormed(r.graph)
    requires EndsWith(r, run, v) && id in r.graph.nodes
    ensures v == RunCompleted && id in Last(run).remaining ==> Statuses(Last(run).log, id) == []
    ensures !(v == RunCompleted && id in Last(run).remaining) ==> FullTrace(Statuses(Last(run).log, id))
    ensures id in r.carried ==> Statuses(Last(run).log, id) == [NodeCompleted]
    ensures id in Last(run).completed ==> var t := Statuses(Last(run).log, id); t != [] && t[|t| - 1] == NodeCompleted
    ensures id in Last(run).skipped && id !in Last(run).remaining && id !in r.carried ==>
              Statuses(Last(run).log, id) == [NodeSkipped]
  {
    PinIsSound(r.graph, r.carried);
    RunIsPinned(r, run);
    SoundTraces(PinnedInput(r), PinnedReading(r.graph, r.carried), ClearedRun(run), v, id);
  }

  /** When cancelled dispatches follow the signal and, with each carried node reading what was
      carried, no other node reads None, every node of every ended run has a full trace. */
  lemma AllTracesFull(r: RunInput, run: Run, v: RunStatus, id: NodeId)
    requires WellFormed(r.graph)
    requires NoneOnlyCarried(PinnedReading(r.graph, r.carried), r.carried) && Disciplined(run)
    requires EndsWith(r, run, v) && id in r.graph.nodes
    ensures FullTrace(Statuses(Last(run).log, id))
  {
    EndedTraces(r, run, v, id);
    if v == RunCompleted {
      PinnedRunHoldsReading(r, run);
    }
  }

  lemma {:induction false} RunTraceThroughout(r: RunInput, run: Run, k: nat)
    requires IsRun(r, run) && k < |run.states|
    ensures RunTraceOk(run.states[k])
  {
    if k > 0 {
      RunTraceThroughout(r, run, k - 1);
      assert Step(r.graph, run.states[k - 1], run.events[k - 1], run.states[k - 1 + 1]);
      RunTraceKeeps(r.graph, run.states[k - 1], run.events[k - 1], run.states[k]);
    } else {
      assert [RunWrite(RunRunning, None)] == [] + [RunWrite(RunRunning, None)];
      StatusesSnoc([], RunWrite(RunRunning, None), NoId);
    }
  }

  /** The run writes "running" first and one terminal status last; failure wins over cancel. */
  lemma OneVerdictLast(r: RunInput, run: Run, v: RunStatus)
    requires EndsWith(r, run, v)
    ensures RunStatuses(Last(run).log) == [RunRunning, v]
    ensures Last(run).log[|Last(run).log| - 1] == RunWrite(v, if v == RunFailed then Last(run).failure else None)
    ensures v == RunFailed <==> Last(run).failure.Some?
    ensures v == RunCancelled ==> Last(run).cancelled
    ensures v == RunCompleted || v == RunFailed || v == RunCancelled
  {
    RunTraceThroughout(r, run, |run.events|);
    VerdictThroughout(r, run, |run.events|);
  }
}
