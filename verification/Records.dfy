/** What the database shows of a run at any moment: each task of the round in its row, the inputs a
    started node was given, and the failure that the run row reports
    (workflow-worker/worker/workflows/workflow_run.py; workflow-worker/worker/activities/persistence.py). */
module Records {
  import opened Common
  import opened Dag
  import opened Engine
  import opened Readings
  import opened Safety
  import opened Pinned
  import opened Outcomes
  import opened Traces
  import opened Persistence
  import opened CancelProtocol
  import opened Conditions

  // ---------- tasks of the round ----------

  /** The row of a node, as far as its task goes. */
  ghost predicate RowShows(row: Option<NodeRow>, task: Task) {
    match task
    case Waiting => row.None?
    case Dispatched(inputs) =>
      row.Some? && row.value.status == NodeRunning && row.value.input == Some(inputs)
      && row.value.output == Null && row.value.error == None
    case Finished(Returned(output)) =>
      row.Some? && row.value.status == NodeCompleted && row.value.input.Some?
      && row.value.output == output && row.value.error == None
    case Finished(Failed(error)) =>
      row.Some? && row.value.status == NodeFailed && row.value.input.Some?
      && row.value.output == Null && row.value.error == Some(error)
    case Finished(Stopped) =>
      row.Some? && row.value.status == NodeSkipped && row.value.output == Null && row.value.error == None
  }

  ghost predicate RowsShowTasks(s: State) {
    forall id :: id in s.tasks ==> RowShows(RowOf(Replay(s.log).nodes, id), s.tasks[id])
  }

  /** What a step does to the row of a node. */
  lemma RowAfter(g: Graph, s: State, e: Event, s': State, id: NodeId)
    requires Step(g, s, e, s')
    ensures RowOf(Replay(s'.log).nodes, id) ==
      match Appended(g, s, e)
      case Some(NodeWrite(n, status, input, output, error)) =>
        if n == id then Some(PutNode(RowOf(Replay(s.log).nodes, id), status, input, output, error, |s.log|))
        else RowOf(Replay(s.log).nodes, id)
      case _ => RowOf(Replay(s.log).nodes, id)
  {
    LogGrows(g, s, e, s');
    if Appended(g, s, e).Some? {
      ReplaySnoc(s.log, Appended(g, s, e).value);
    }
  }

  lemma TaskRowKeeps(g: Graph, s: State, e: Event, s': State, id: NodeId, before: Option<NodeRow>)
    requires Step(g, s, e, s') && (e.Start? || e.Finish?) && id in s.tasks && RowShows(before, s.tasks[id])
    ensures id in s'.tasks
    ensures var after := match Appended(g, s, e)
                         case Some(NodeWrite(n, status, input, output, error)) =>
                           if n == id then Some(PutNode(before, status, input, output, error, |s.log|)) else before
                         case _ => before;
      RowShows(after, s'.tasks[id])
  {
  }

  /** Before a round opens, none of its nodes has a row. */
  lemma OpenedHaveNoRows(g: Graph, rd: Readings, s: State, order: seq<NodeId>, id: NodeId)
    requires PlannedOk(g, rd, s) && Enabled(g, s, OpenRound(order)) && id in order
    ensures RowOf(Replay(s.log).nodes, id) == None
  {
    assert id in Frontier(g, s);
    CarriedAside(g, rd, s);
    RowShowsTrace(s.log, id);
    assert TraceFits(rd, Cleared(s), id, Statuses(s.log, id));
  }

  lemma RowsShowKeeps(g: Graph, rd: Readings, s: State, e: Event, s': State)
    requires PlannedOk(g, rd, s) && RowsShowTasks(s) && Step(g, s, e, s')
    ensures RowsShowTasks(s')
  {
    forall id | id in s'.tasks ensures RowShows(RowOf(Replay(s'.log).nodes, id), s'.tasks[id]) {
      RowAfter(g, s, e, s', id);
      if e.OpenRound? {
        OpenedHaveNoRows(g, rd, s, e.order, id);
      } else if e.Start? || e.Finish? {
        TaskRowKeeps(g, s, e, s', id, RowOf(Replay(s.log).nodes, id));
      } else {
        TasksOnlyInRound(g, rd, s);
        OtherStepsKeepTasks(g, s, e, s', id);
      }
    }
  }

  lemma TasksOnlyInRound(g: Graph, rd: Readings, s: State)
    requires PlannedOk(g, rd, s)
    ensures s.tasks != map[] ==> s.phase.InRound?
  {
  }

  lemma OtherStepsKeepTasks(g: Graph, s: State, e: Event, s': State, id: NodeId)
    requires s.tasks != map[] ==> s.phase.InRound?
    requires Step(g, s, e, s') && !e.OpenRound? && !e.Start? && !e.Finish? && id in s'.tasks
    ensures s.phase.InRound? && id in s.tasks && s'.tasks[id] == s.tasks[id] && Appended(g, s, e).None?
  {
  }

  lemma {:induction false} PlannedThroughout(r: RunInput, run: Run, k: nat)
    requires WellFormed(r.graph) && IsRun(r, run) && k < |run.states|
    ensures run.states[k].carried == r.carried
    ensures PlannedOk(r.graph, PinnedReading(r.graph, r.carried), run.states[k])
  {
    if k == 0 {
      PlannedOkStarts(r.graph, r.carried);
    } else {
      PlannedThroughout(r, run, k - 1);
      var s, e, s' := run.states[k - 1], run.events[k - 1], run.states[k - 1 + 1];
      assert Step(r.graph, s, e, s');
      PlannedOkKeeps(r.graph, PinnedReading(r.graph, r.carried), s, e, s');
    }
  }

  /** In every state of every run each node of the round has the row that its task says: none while it
      waits, then "running" with exactly what it was dispatched on, then its status with its output
      or its error. */
  lemma {:induction false} TasksInRows(r: RunInput, run: Run, k: nat)
    requires WellFormed(r.graph) && IsRun(r, run) && k < |run.states|
    ensures RowsShowTasks(run.states[k])
  {
    if k > 0 {
      TasksInRows(r, run, k - 1);
      PlannedThroughout(r, run, k - 1);
      var s, e, s' := run.states[k - 1], run.events[k - 1], run.states[k - 1 + 1];
      assert Step(r.graph, s, e, s');
      RowsShowKeeps(r.graph, PinnedReading(r.graph, r.carried), s, e, s');
    }
  }

  // ---------- what a started node was given ----------

  /** A row has an input iff its node started, and then the node was free to: not carried, all its
      upstreams settled, and given exactly their outputs. */
  ghost predicate InputFits(g: Graph, s: State, id: NodeId, row: Option<NodeRow>) {
    row.Some? ==>
      && (row.value.input.Some? <==> row.value.startedAt.Some?)
      && (row.value.input.Some? ==>
            id !in s.carried && Settled(g, s, id) && row.value.input == Some(InputsOf(g, s.context, id)))
  }

  /** What is settled stays settled, and its outputs stay. */
  lemma SettledStays(g: Graph, rd: Readings, s: State, e: Event, s': State, id: NodeId)
    requires WellFormed(g) && PlannedOk(g, rd, s) && PlannedOk(g, rd, s') && s'.carried == s.carried
    requires Step(g, s, e, s') && id in g.nodes && id !in s.carried && Settled(g, s, id) && !s.phase.Carrying?
    ensures Settled(g, s', id) && InputsOf(g, s'.context, id) == InputsOf(g, s.context, id)
  {
    StepGrows(g, s, e, s');
    MarksGrow(g, s, e, s');
    CarriedAside(g, rd, s);
    CarriedAside(g, rd, s');
    PinNeighbours(g, s.carried, id);
    SettledDecides(Pin(g, s.carried), rd, Cleared(s), id);
    SettledDecides(Pin(g, s.carried), rd, Cleared(s'), id);
    assert InputsOf(Pin(g, s.carried), s.context, id) == InputsOf(g, s.context, id);
    assert InputsOf(Pin(g, s.carried), s'.context, id) == InputsOf(g, s'.context, id);
  }

  lemma MarksGrow(g: Graph, s: State, e: Event, s': State)
    requires Step(g, s, e, s')
    ensures s.skipped <= s'.skipped
    ensures !s.phase.Carrying? ==> !s'.phase.Carrying?
  {
  }

  lemma StartedAreNodes(g: Graph, rd: Readings, s: State, id: NodeId)
    requires PlannedOk(g, rd, s) && id in Replay(s.log).nodes && Replay(s.log).nodes[id].startedAt.Some?
    ensures id in g.nodes && (s.phase.Carrying? ==> false)
  {
    RowsAgree(Pin(g, s.carried), rd, s.log, id);
    RowShowsTrace(s.log, id);
    assert TraceFits(rd, Cleared(s), id, Statuses(s.log, id));
  }

  /** The input and start of a row. */
  ghost function Begun(row: Option<NodeRow>): (Option<map<NodeId, Json>>, Option<nat>) {
    if row.Some? then (row.value.input, row.value.startedAt) else (None, None)
  }

  /** The event that starts a node, rather than skipping it. */
  ghost predicate Dispatches(s: State, e: Event, id: NodeId) {
    e == Start(id) && !s.cancelled && id !in s.skipped
  }

  lemma OtherWritesBeginNothing(g: Graph, s: State, e: Event, s': State, id: NodeId)
    requires Step(g, s, e, s') && !Dispatches(s, e, id)
    ensures Begun(RowOf(Replay(s'.log).nodes, id)) == Begun(RowOf(Replay(s.log).nodes, id))
    ensures RowOf(Replay(s.log).nodes, id).Some? ==> RowOf(Replay(s'.log).nodes, id).Some?
  {
    RowAfter(g, s, e, s', id);
  }

  lemma DispatchFits(g: Graph, rd: Readings, s: State, id: NodeId, s': State)
    requires PlannedOk(g, rd, s) && RowsShowTasks(s) && Step(g, s, Start(id), s') && Dispatches(s, Start(id), id)
    ensures InputFits(g, s', id, RowOf(Replay(s'.log).nodes, id))
  {
    RowAfter(g, s, Start(id), s', id);
    OpenTaskAside(g, rd, s, id);
    CarriedAside(g, rd, s);
    assert Settled(Pin(g, s.carried), Cleared(s), id);
    assert Settled(g, s', id) <==> Settled(g, s, id);
  }

  lemma BegunFits(g: Graph, s: State, id: NodeId, row: Option<NodeRow>, s': State, row': Option<NodeRow>)
    requires InputFits(g, s, id, row) && Begun(row) == Begun(row') && s'.carried == s.carried
    requires row.Some? && row.value.input.Some? ==>
      Settled(g, s', id) && InputsOf(g, s'.context, id) == InputsOf(g, s.context, id)
    ensures InputFits(g, s', id, row')
  {
  }

  lemma InputKeeps(g: Graph, rd: Readings, s: State, e: Event, s': State, id: NodeId)
    requires WellFormed(g) && PlannedOk(g, rd, s) && RowsShowTasks(s) && Step(g, s, e, s')
    requires InputFits(g, s, id, RowOf(Replay(s.log).nodes, id))
    ensures InputFits(g, s', id, RowOf(Replay(s'.log).nodes, id))
  {
    var row, row' := RowOf(Replay(s.log).nodes, id), RowOf(Replay(s'.log).nodes, id);
    if Dispatches(s, e, id) {
      DispatchFits(g, rd, s, id, s');
    } else {
      PlannedOkKeeps(g, rd, s, e, s');
      OtherWritesBeginNothing(g, s, e, s', id);
      if row.Some? && row.value.input.Some? {
        StartedAreNodes(g, rd, s, id);
        SettledStays(g, rd, s, e, s', id);
      }
      BegunFits(g, s, id, row, s', row');
    }
  }

  lemma NoRowsYet(carried: map<NodeId, Json>)
    ensures Replay(Init(carried).log).nodes == map[]
  {
    var w := RunWrite(RunRunning, None);
    ReplaySnoc([], w);
    assert [] + [w] == [w];
  }

  lemma NextInput(r: RunInput, run: Run, k: nat, id: NodeId)
    requires WellFormed(r.graph) && IsRun(r, run) && k < |run.events|
    requires InputFits(r.graph, run.states[k], id, RowOf(Replay(run.states[k].log).nodes, id))
    ensures InputFits(r.graph, run.states[k + 1], id, RowOf(Replay(run.states[k + 1].log).nodes, id))
  {
    PlannedThroughout(r, run, k);
    TasksInRows(r, run, k);
    assert Step(r.graph, run.states[k], run.events[k], run.states[k + 1]);
    InputKeeps(r.graph, PinnedReading(r.graph, r.carried), run.states[k], run.events[k], run.states[k + 1], id);
  }

  lemma {:induction false} InputsThroughout(r: RunInput, run: Run, k: nat, id: NodeId)
    requires WellFormed(r.graph) && IsRun(r, run) && k < |run.states|
    ensures InputFits(r.graph, run.states[k], id, RowOf(Replay(run.states[k].log).nodes, id))
  {
    if k == 0 {
      NoRowsYet(r.carried);
    } else {
      InputsThroughout(r, run, k - 1, id);
      NextInput(r, run, k - 1, id);
    }
  }

  /** In every state of every run: a row has an input iff its node started, and the input is then one
      entry for the source of each edge into it, with the output that source has ended with, or None;
      each source is completed or skipped by then. */
  lemma RowInputs(r: RunInput, run: Run, k: nat, id: NodeId)
    requires WellFormed(r.graph) && IsRun(r, run) && k < |run.states|
    requires id in Replay(run.states[k].log).nodes
    ensures var s, row := run.states[k], Replay(run.states[k].log).nodes[id];
      && (row.input.Some? <==> row.startedAt.Some?)
      && (row.input.Some? ==>
            && id !in r.carried && Inputs(r.graph, s.context, id, row.input.value)
            && forall u :: Edge(u, id) in r.graph.edges ==> u in s.completed || u in s.skipped)
  {
    var s := run.states[k];
    InputsThroughout(r, run, k, id);
    PlannedThroughout(r, run, k);
    InputsAre(r.graph, s.context, id);
    SettledMeans(r.graph, s, id);
  }

  // ---------- failures ----------

  /** The message that the run keeps of a failed node. */
  ghost function Blame(error: string): string {
    if error == "" then "node failed" else error
  }

  ghost predicate FailedRow(rows: map<NodeId, NodeRow>, id: NodeId, error: string) {
    id in rows && rows[id].status == NodeFailed && rows[id].error == Some(error)
  }

  /** A failed task that is not collected yet. */
  ghost predicate Uncollected(s: State, id: NodeId) {
    s.phase.InRound? && id in s.tasks && s.tasks[id].Finished? && s.tasks[id].outcome.Failed?
    && exists i :: s.phase.collected <= i < |s.phase.order| && s.phase.order[i] == id
  }

  ghost predicate FailureFits(s: State) {
    && (s.failure.Some? ==>
          exists id, error :: FailedRow(Replay(s.log).nodes, id, error) && s.failure == Some(Blame(error)))
    && (forall id :: id in Replay(s.log).nodes && Replay(s.log).nodes[id].status == NodeFailed ==>
          s.failure.Some? || Uncollected(s, id))
  }

  lemma UnwrittenRowStays(log: seq<Write>, w: Write, id: NodeId)
    requires id in Replay(log).nodes && !(w.NodeWrite? && w.id == id)
    ensures id in Replay(log + [w]).nodes && Replay(log + [w]).nodes[id] == Replay(log).nodes[id]
  {
    ReplaySnoc(log, w);
    PutElsewhere(Replay(log), w, |log|, id);
  }

  lemma TerminalUnwritten(g: Graph, rd: Readings, s: State, e: Event, s': State, id: NodeId)
    requires WellFormed(g) && PlannedOk(g, rd, s) && Step(g, s, e, s') && Appended(g, s, e).Some?
    requires id in Replay(s.log).nodes && !NodeLive(Replay(s.log).nodes[id].status)
    ensures var w := Appended(g, s, e).value; s'.log == s.log + [w] && !(w.NodeWrite? && w.id == id)
  {
    PlannedOkKeeps(g, rd, s, e, s');
    LogGrows(g, s, e, s');
    TerminalIsLastWrite(Pin(g, s.carried), rd, Cleared(s'), s.log, Appended(g, s, e).value, id);
  }

  /** A failed row stays as it is. */
  lemma FailedRowStays(g: Graph, rd: Readings, s: State, e: Event, s': State, id: NodeId)
    requires WellFormed(g) && PlannedOk(g, rd, s) && Step(g, s, e, s')
    requires id in Replay(s.log).nodes && Replay(s.log).nodes[id].status == NodeFailed
    ensures id in Replay(s'.log).nodes && Replay(s'.log).nodes[id] == Replay(s.log).nodes[id]
  {
    if Appended(g, s, e).Some? {
      TerminalUnwritten(g, rd, s, e, s', id);
      UnwrittenRowStays(s.log, Appended(g, s, e).value, id);
    } else {
      LogGrows(g, s, e, s');
    }
  }

  /** A row turns to failed only by the failure of its task. */
  lemma FailsByTask(g: Graph, s: State, e: Event, s': State, id: NodeId)
    requires Step(g, s, e, s')
    requires id in Replay(s'.log).nodes && Replay(s'.log).nodes[id].status == NodeFailed
    ensures (id in Replay(s.log).nodes && Replay(s.log).nodes[id].status == NodeFailed)
            || (e.Finish? && e.id == id && e.outcome.Failed?)
  {
    RowAfter(g, s, e, s', id);
  }

  lemma FinishedIsUncollected(g: Graph, rd: Readings, s: State, e: Event, s': State)
    requires PlannedOk(g, rd, s) && Step(g, s, e, s') && e.Finish? && e.outcome.Failed?
    ensures Uncollected(s', e.id)
  {
    var i :| 0 <= i < |s.phase.order| && s.phase.order[i] == e.id;
    assert s.phase.order[i] in s.tasks && !s.tasks[s.phase.order[i]].Finished?;
    assert s'.phase.order[i] == e.id;
  }

  lemma UncollectedKeeps(g: Graph, s: State, e: Event, s': State, id: NodeId)
    requires Step(g, s, e, s') && Uncollected(s, id) && NoDuplicates(s.phase.order)
    ensures Uncollected(s', id) || s'.failure.Some?
  {
    var i :| s.phase.collected <= i < |s.phase.order| && s.phase.order[i] == id;
    if s'.phase.InRound? {
      assert s'.phase.order[i] == id;
    }
  }

  /** A failure recorded now is that of the node just collected. */
  lemma BlameOf(g: Graph, s: State, e: Event, s': State) returns (id: NodeId, error: string)
    requires RowsShowTasks(s) && Step(g, s, e, s') && s'.failure != s.failure
    ensures FailedRow(Replay(s.log).nodes, id, error) && s'.failure == Some(Blame(error))
  {
    id := s.phase.order[s.phase.collected];
    error := s.tasks[id].outcome.error;
    assert RowShows(RowOf(Replay(s.log).nodes, id), s.tasks[id]);
  }

  lemma FailureStays(g: Graph, s: State, e: Event, s': State)
    requires Step(g, s, e, s')
    ensures s.failure.Some? ==> s'.failure.Some?
    ensures s'.failure != s.failure ==> e.Collect?
  {
  }

  lemma BlameKeeps(g: Graph, rd: Readings, s: State, e: Event, s': State)
    requires WellFormed(g) && PlannedOk(g, rd, s) && RowsShowTasks(s) && FailureFits(s) && Step(g, s, e, s')
    requires s'.failure.Some?
    ensures exists id, error :: FailedRow(Replay(s'.log).nodes, id, error) && s'.failure == Some(Blame(error))
  {
    var id, error;
    if s'.failure == s.failure {
      id, error :| FailedRow(Replay(s.log).nodes, id, error) && s.failure == Some(Blame(error));
    } else {
      id, error := BlameOf(g, s, e, s');
    }
    FailedRowStays(g, rd, s, e, s', id);
    assert FailedRow(Replay(s'.log).nodes, id, error);
  }

  lemma FailedKeeps(g: Graph, rd: Readings, s: State, e: Event, s': State, id: NodeId)
    requires PlannedOk(g, rd, s) && FailureFits(s) && Step(g, s, e, s')
    requires id in Replay(s'.log).nodes && Replay(s'.log).nodes[id].status == NodeFailed
    ensures s'.failure.Some? || Uncollected(s', id)
  {
    FailsByTask(g, s, e, s', id);
    FailureStays(g, s, e, s');
    if e.Finish? && e.id == id && e.outcome.Failed? {
      FinishedIsUncollected(g, rd, s, e, s');
    } else if s.failure.None? {
      assert Uncollected(s, id);
      UncollectedKeeps(g, s, e, s', id);
    }
  }

  lemma FailureKeeps(g: Graph, rd: Readings, s: State, e: Event, s': State)
    requires WellFormed(g) && PlannedOk(g, rd, s) && RowsShowTasks(s) && FailureFits(s) && Step(g, s, e, s')
    ensures FailureFits(s')
  {
    if s'.failure.Some? {
      BlameKeeps(g, rd, s, e, s');
    }
    forall id | id in Replay(s'.log).nodes && Replay(s'.log).nodes[id].status == NodeFailed
      ensures s'.failure.Some? || Uncollected(s', id)
    {
      FailedKeeps(g, rd, s, e, s', id);
    }
  }

  lemma NoFailureYet(carried: map<NodeId, Json>)
    ensures FailureFits(Init(carried))
  {
    NoRowsYet(carried);
  }

  lemma NextFailure(r: RunInput, run: Run, k: nat)
    requires WellFormed(r.graph) && IsRun(r, run) && k < |run.events| && FailureFits(run.states[k])
    ensures FailureFits(run.states[k + 1])
  {
    PlannedThroughout(r, run, k);
    TasksInRows(r, run, k);
    assert Step(r.graph, run.states[k], run.events[k], run.states[k + 1]);
    FailureKeeps(r.graph, PinnedReading(r.graph, r.carried), run.states[k], run.events[k], run.states[k + 1]);
  }

  lemma {:induction false} FailureThroughout(r: RunInput, run: Run, k: nat)
    requires WellFormed(r.graph) && IsRun(r, run) && k < |run.states|
    ensures FailureFits(run.states[k])
  {
    if k == 0 {
      NoFailureYet(r.carried);
    } else {
      FailureThroughout(r, run, k - 1);
      NextFailure(r, run, k - 1);
    }
  }

  ghost predicate RunErrorFits(s: State) {
    Replay(s.log).run.error == if s.phase == Ended(RunFailed) then s.failure else None
  }

  lemma RunErrorStarts(carried: map<NodeId, Json>)
    ensures RunErrorFits(Init(carried))
  {
    var w := RunWrite(RunRunning, None);
    ReplaySnoc([], w);
    assert [] + [w] == [w];
  }

  lemma RunErrorKeeps(g: Graph, s: State, e: Event, s': State)
    requires VerdictOk(g, s) && RunErrorFits(s) && Step(g, s, e, s')
    ensures RunErrorFits(s')
  {
    LogGrows(g, s, e, s');
    if Appended(g, s, e).Some? {
      ReplaySnoc(s.log, Appended(g, s, e).value);
    }
  }

  lemma {:induction false} RunErrorThroughout(r: RunInput, run: Run, k: nat)
    requires IsRun(r, run) && k < |run.states|
    ensures RunErrorFits(run.states[k])
  {
    if k == 0 {
      RunErrorStarts(r.carried);
    } else {
      RunErrorThroughout(r, run, k - 1);
      VerdictThroughout(r, run, k - 1);
      var s, e, s' := run.states[k - 1], run.events[k - 1], run.states[k - 1 + 1];
      assert Step(r.graph, s, e, s');
      RunErrorKeeps(r.graph, s, e, s');
    }
  }

  /** The run fails iff one of its nodes failed, and then the run row shows the error of a failed
      node's row, or "node failed" if that is empty; otherwise it shows no error. */
  lemma FailedRunsBlame(r: RunInput, run: Run, v: RunStatus)
    requires WellFormed(r.graph) && EndsWith(r, run, v)
    ensures var rows := Replay(Last(run).log);
      && rows.run.status == v
      && (v == RunFailed <==> exists id :: id in rows.nodes && rows.nodes[id].status == NodeFailed)
      && (v == RunFailed ==> exists id, error :: FailedRow(rows.nodes, id, error)
                               && rows.run.error == Some(if error == "" then "node failed" else error))
      && (v != RunFailed ==> rows.run.error == None)
  {
    RunTraceThroughout(r, run, |run.events|);
    RunRowShowsTrace(Last(run).log);
    RunErrorThroughout(r, run, |run.events|);
    FailureThroughout(r, run, |run.events|);
    VerdictThroughout(r, run, |run.events|);
  }

  /** A failure that has been recorded when a round is over. */
  ghost predicate GivenUp(s: State) {
    s.failure.Some? && (s.phase.Deciding? || s.phase.Draining? || s.phase.Ended?)
  }

  lemma GivenUpStartsNothing(g: Graph, s: State, e: Event, s': State, id: NodeId)
    requires Step(g, s, e, s') && GivenUp(s)
    ensures GivenUp(s')
    ensures Begun(RowOf(Replay(s'.log).nodes, id)) == Begun(RowOf(Replay(s.log).nodes, id))
  {
    OtherWritesBeginNothing(g, s, e, s', id);
  }

  /** After the round in which a node failed no node starts any more. */
  lemma {:induction false} NothingStartsAfterFailure(r: RunInput, run: Run, k: nat, later: nat, id: NodeId)
    requires IsRun(r, run) && k <= later < |run.states| && GivenUp(run.states[k])
    ensures GivenUp(run.states[later])
    ensures Begun(RowOf(Replay(run.states[later].log).nodes, id)) == Begun(RowOf(Replay(run.states[k].log).nodes, id))
  {
    if k < later {
      NothingStartsAfterFailure(r, run, k, later - 1, id);
      var s, e, s' := run.states[later - 1], run.events[later - 1], run.states[later - 1 + 1];
      assert Step(r.graph, s, e, s');
      GivenUpStartsNothing(r.graph, s, e, s', id);
    }
  }

  // ---------- carried rows, and a cancel in time ----------

  /** At the end of any run a carried node has a completed row with the carried output, and never
      started. */
  lemma CarriedInRows(r: RunInput, run: Run, v: RunStatus, id: NodeId)
    requires WellFormed(r.graph) && EndsWith(r, run, v) && id in r.carried && id in r.graph.nodes
    ensures var rows := Replay(Last(run).log).nodes;
      id in rows && rows[id].status == NodeCompleted && rows[id].output == r.carried[id]
      && rows[id].startedAt == None && rows[id].input == None
  {
    var log, rd := Last(run).log, PinnedReading(r.graph, r.carried);
    PlannedThroughout(r, run, |run.events|);
    PinIsSound(r.graph, r.carried);
    EndedTraces(r, run, v, id);
    RowShowsTrace(log, id);
    RowsAgree(Pin(r.graph, r.carried), rd, log, id);
    RowInputs(r, run, |run.events|, id);
  }

  lemma RowsAreNodes(r: RunInput, run: Run, k: nat)
    requires WellFormed(r.graph) && IsRun(r, run) && k < |run.states|
    ensures Replay(run.states[k].log).nodes.Keys <= r.graph.nodes.Keys
  {
    PlannedThroughout(r, run, k);
    forall id | id in Replay(run.states[k].log).nodes ensures id in r.graph.nodes {
      RowsAgree(Pin(r.graph, r.carried), PinnedReading(r.graph, r.carried), run.states[k].log, id);
    }
  }

  ghost predicate ToldInTime(s: State) {
    s.cancelled && (s.phase.Draining? || s.phase.Ended? ==> s.phase.verdict != RunCompleted)
  }

  lemma {:induction false} ToldThroughout(r: RunInput, run: Run, k: nat, later: nat)
    requires IsRun(r, run) && k <= later < |run.states| && ToldInTime(run.states[k])
    ensures ToldInTime(run.states[later])
  {
    if k < later {
      ToldThroughout(r, run, k, later - 1);
      assert Step(r.graph, run.states[later - 1], run.events[later - 1], run.states[later - 1 + 1]);
    }
  }

  /** A run that is told to cancel before it leaves its loop ends "cancelled", unless a node failed. */
  lemma CancelledInTime(r: RunInput, run: Run, k: nat, v: RunStatus)
    requires WellFormed(r.graph) && EndsWith(r, run, v) && k < |run.states| && run.states[k].cancelled
    requires var phase := run.states[k].phase; phase.Carrying? || phase.Deciding? || phase.InRound?
    ensures var rows := Replay(Last(run).log);
      rows.run.status
      == if exists id :: id in rows.nodes && rows.nodes[id].status == NodeFailed then RunFailed else RunCancelled
  {
    ToldThroughout(r, run, k, |run.events|);
    VerdictThroughout(r, run, |run.events|);
    FailedRunsBlame(r, run, v);
  }
}
