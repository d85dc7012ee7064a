/** The run and node rows that the worker's persistence activities and the API's cancel path
    write (workflow-worker/worker/activities/persistence.py; api/app/services/workflow_run_service.py). */
module Persistence {
  import opened Common
  import opened Dag
  import opened Engine
  import opened Readings
  import opened Safety
  import opened Pinned
  import opened Traces

  datatype RunRow = RunRow(status: RunStatus, error: Option<string>, startedAt: Option<nat>, completedAt: Option<nat>)

  datatype NodeRow = NodeRow(
    status: NodeStatus,
    input: Option<map<NodeId, Json>>,
    output: Json,
    error: Option<string>,
    startedAt: Option<nat>,
    completedAt: Option<nat>)

  datatype Rows = Rows(run: RunRow, nodes: map<NodeId, NodeRow>)

  predicate RunLive(status: RunStatus) {
    status == RunPending || status == RunRunning
  }

  predicate NodeLive(status: NodeStatus) {
    status == NodePending || status == NodeRunning
  }

  /** What a run row becomes under set_run_status. */
  function PutRun(row: RunRow, status: RunStatus, error: Option<string>, now: nat): RunRow {
    RunRow(status,
           if error.Some? then error else row.error,
           if status == RunRunning then Some(now) else row.startedAt,
           if RunLive(status) then row.completedAt else Some(now))
  }

  /** What a node's row becomes under set_node_status; the first write creates it. */
  function PutNode(prior: Option<NodeRow>, status: NodeStatus, input: Option<map<NodeId, Json>>, output: Json,
                   error: Option<string>, now: nat): NodeRow
  {
    match prior
    case None =>
      NodeRow(status, input, output, error,
              if status == NodeRunning then Some(now) else None, if NodeLive(status) then None else Some(now))
    case Some(row) =>
      NodeRow(status,
              if input.Some? then input else row.input,
              if output.Null? then row.output else output,
              if error.Some? then error else row.error,
              if status == NodeRunning && row.startedAt.None? then Some(now) else row.startedAt,
              if !NodeLive(status) && row.completedAt.None? then Some(now) else row.completedAt)
  }

  function RowOf(nodes: map<NodeId, NodeRow>, id: NodeId): Option<NodeRow> {
    if id in nodes then Some(nodes[id]) else None
  }

  function Put(rows: Rows, w: Write, now: nat): Rows {
    match w
    case RunWrite(status, error) => rows.(run := PutRun(rows.run, status, error, now))
    case NodeWrite(id, status, input, output, error) =>
      rows.(nodes := rows.nodes[id := PutNode(RowOf(rows.nodes, id), status, input, output, error, now)])
  }

  /** _mark_run_cancelled: live rows only, so nothing terminal is overwritten. */
  function Sweep(rows: Rows, error: string, now: nat): Rows {
    Rows(if RunLive(rows.run.status)
         then rows.run.(status := RunCancelled, completedAt := Some(now), error := Some(error)) else rows.run,
         map id | id in rows.nodes ::
           if NodeLive(rows.nodes[id].status) then rows.nodes[id].(status := NodeSkipped, completedAt := Some(now))
           else rows.nodes[id])
  }

  /** A fresh row, as create_run inserts it. */
  function Inserted(): Rows {
    Rows(RunRow(RunPending, None, None, None), map[])
  }

  /** The rows after a list of writes; the clock counts writes. */
  ghost function Replay(log: seq<Write>): Rows {
    if log == [] then Inserted()
    else Put(Replay(log[..|log| - 1]), log[|log| - 1], |log| - 1)
  }

  lemma ReplaySnoc(log: seq<Write>, w: Write)
    ensures Replay(log + [w]) == Put(Replay(log), w, |log|)
  {
    assert (log + [w])[..|log|] == log;
  }

  /** The database session both writers use. */
  class RunStore {
    var run: RunRow
    var nodes: map<NodeId, NodeRow>

    constructor ()
      ensures View() == Inserted()
    {
      run, nodes := RunRow(RunPending, None, None, None), map[];
    }

    ghost function View(): Rows
      reads this
    {
      Rows(run, nodes)
    }

    method SetRunStatus(status: RunStatus, error: Option<string>, now: nat)
      modifies this
      ensures View() == Put(old(View()), RunWrite(status, error), now)
    {
      var row := run.(status := status);
      if error.Some? {
        row := row.(error := error);
      }
      if status == RunRunning {
        row := row.(startedAt := Some(now));
      } else if status == RunCompleted || status == RunFailed || status == RunCancelled {
        row := row.(completedAt := Some(now));
      }
      run := row;
    }

    method SetNodeStatus(id: NodeId, status: NodeStatus, input: Option<map<NodeId, Json>>, output: Json,
                         error: Option<string>, now: nat)
      modifies this
      ensures View() == Put(old(View()), NodeWrite(id, status, input, output, error), now)
    {
      if id !in nodes {
        var started := if status == NodeRunning then Some(now) else None;
        var ended := if status in {NodeCompleted, NodeFailed, NodeSkipped} then Some(now) else None;
        nodes := nodes[id := NodeRow(status, input, output, error, started, ended)];
      } else {
        var row := nodes[id].(status := status);
        if input.Some? {
          row := row.(input := input);
        }
        if output != Null {
          row := row.(output := output);
        }
        if error.Some? {
          row := row.(error := error);
        }
        if status == NodeRunning && row.startedAt.None? {
          row := row.(startedAt := Some(now));
        }
        if status in {NodeCompleted, NodeFailed, NodeSkipped} && row.completedAt.None? {
          row := row.(completedAt := Some(now));
        }
        nodes := nodes[id := row];
      }
    }

    /** The two guarded updates; `changed` is the row count that decides on an event. */
    method MarkRunCancelled(error: string, now: nat) returns (changed: bool)
      modifies this
      ensures View() == Sweep(old(View()), error, now)
      ensures changed <==> old(run.status) in {RunPending, RunRunning}
      ensures run == if changed then old(run).(status := RunCancelled, completedAt := Some(now), error := Some(error))
                     else old(run)
      ensures nodes.Keys == old(nodes.Keys)
      ensures forall id :: id in nodes ==>
        nodes[id] == if old(nodes)[id].status in {NodePending, NodeRunning}
                     then old(nodes)[id].(status := NodeSkipped, completedAt := Some(now)) else old(nodes)[id]
    {
      changed := run.status == RunPending || run.status == RunRunning;
      if changed {
        run := run.(status := RunCancelled, completedAt := Some(now), error := Some(error));
      }
      nodes := map id | id in nodes ::
        if nodes[id].status == NodePending || nodes[id].status == NodeRunning
        then nodes[id].(status := NodeSkipped, completedAt := Some(now)) else nodes[id];
    }
  }

  // ---------- rows and traces ----------

  ghost predicate RowMatches(row: Option<NodeRow>, t: seq<NodeStatus>) {
    && (row.Some? <==> t != [])
    && (row.Some? ==>
          && row.value.status == t[|t| - 1]
          && (row.value.startedAt.Some? <==> NodeRunning in t)
          && (row.value.completedAt.Some? <==> exists k :: 0 <= k < |t| && !NodeLive(t[k])))
  }

  lemma RowMatchesSnoc(row: Option<NodeRow>, t: seq<NodeStatus>, w: Write, now: nat)
    requires RowMatches(row, t) && w.NodeWrite?
    ensures RowMatches(Some(PutNode(row, w.status, w.input, w.output, w.error, now)), t + [w.status])
  {
    var t' := t + [w.status];
    assert t'[|t|] == w.status;
    assert forall k :: 0 <= k < |t| ==> t'[k] == t[k];
  }

  /** A node's row exists once something was written, shows the last status written, has a
      start time iff it ran and an end time iff some terminal status was written. */
  lemma {:induction false} RowShowsTrace(log: seq<Write>, id: NodeId)
    ensures RowMatches(RowOf(Replay(log).nodes, id), Statuses(log, id))
  {
    if log != [] {
      var w := log[|log| - 1];
      RowShowsTrace(log[..|log| - 1], id);
      if w.NodeWrite? && w.id == id {
        RowMatchesSnoc(RowOf(Replay(log[..|log| - 1]).nodes, id), Statuses(log[..|log| - 1], id), w, |log| - 1);
      } else {
        assert Statuses(log, id) == Statuses(log[..|log| - 1], id);
      }
    }
  }

  lemma {:induction false} RunRowShowsTrace(log: seq<Write>)
    requires RunStatuses(log) != []
    ensures Replay(log).run.status == RunStatuses(log)[|RunStatuses(log)| - 1]
  {
    if !log[|log| - 1].RunWrite? {
      RunRowShowsTrace(log[..|log| - 1]);
    }
  }

  ghost predicate RowAgrees(row: NodeRow, reading: Reading) {
    && (row.status == NodeCompleted ==> reading == Output(row.output))
    && (!row.output.Null? ==> reading == Output(row.output))
  }

  /** Every row that reads "completed" holds the output of the reading. */
  lemma {:induction false} RowsAgree(g: Graph, rd: Readings, log: seq<Write>, id: NodeId)
    requires rd.Keys == g.nodes.Keys && LogOk(g, rd, log)
    requires id in Replay(log).nodes
    ensures id in g.nodes && RowAgrees(Replay(log).nodes[id], rd[id])
  {
    var before, w := log[..|log| - 1], log[|log| - 1];
    assert w in log;
    assert LogOk(g, rd, before);
    if id in Replay(before).nodes {
      RowsAgree(g, rd, before, id);
    }
  }

  // ---------- rows, field by field ----------

  function GivesInput(id: NodeId): Write -> bool {
    (w: Write) => w.NodeWrite? && w.id == id && w.input.Some?
  }

  function GivesOutput(id: NodeId): Write -> bool {
    (w: Write) => w.NodeWrite? && w.id == id && w.output != Null
  }

  function GivesError(id: NodeId): Write -> bool {
    (w: Write) => w.NodeWrite? && w.id == id && w.error.Some?
  }

  function Starts(id: NodeId): Write -> bool {
    (w: Write) => w.NodeWrite? && w.id == id && w.status == NodeRunning
  }

  function Ends(id: NodeId): Write -> bool {
    (w: Write) => w.NodeWrite? && w.id == id && w.status in {NodeCompleted, NodeFailed, NodeSkipped}
  }

  function GivesMessage(): Write -> bool {
    (w: Write) => w.RunWrite? && w.message.Some?
  }

  function StartsRun(): Write -> bool {
    (w: Write) => w.RunWrite? && w.run == RunRunning
  }

  function EndsRun(): Write -> bool {
    (w: Write) => w.RunWrite? && w.run in {RunCompleted, RunFailed, RunCancelled}
  }

  /** The writes that fill the fields of one node's row. */
  datatype Sources = Sources(
    input: Option<nat>, output: Option<nat>, error: Option<nat>, started: Option<nat>, ended: Option<nat>)

  ghost predicate FromWrites(log: seq<Write>, id: NodeId, row: Option<NodeRow>, at: Sources) {
    && LastAt(log, GivesInput(id), at.input)
    && LastAt(log, GivesOutput(id), at.output)
    && LastAt(log, GivesError(id), at.error)
    && FirstAt(log, Starts(id), at.started)
    && FirstAt(log, Ends(id), at.ended)
    && match row
       case None => at == Sources(None, None, None, None, None)
       case Some(r) =>
         && r.input == (if at.input.Some? then log[at.input.value].input else None)
         && r.output == (if at.output.Some? then log[at.output.value].output else Null)
         && r.error == (if at.error.Some? then log[at.error.value].error else None)
         && r.startedAt == at.started && r.completedAt == at.ended
  }

  /** A write for another node, or for the run, leaves all five where they are. */
  lemma ElsewhereSnoc(log: seq<Write>, id: NodeId, row: Option<NodeRow>, at: Sources, w: Write)
    requires FromWrites(log, id, row, at) && !(w.NodeWrite? && w.id == id)
    ensures FromWrites(log + [w], id, row, at)
  {
    LastAtSnoc(log, GivesInput(id), at.input, w);
    LastAtSnoc(log, GivesOutput(id), at.output, w);
    LastAtSnoc(log, GivesError(id), at.error, w);
    FirstAtSnoc(log, Starts(id), at.started, w);
    FirstAtSnoc(log, Ends(id), at.ended, w);
  }

  lemma OwnSnoc(log: seq<Write>, id: NodeId, row: Option<NodeRow>, at: Sources, w: Write) returns (at': Sources)
    requires FromWrites(log, id, row, at) && w.NodeWrite? && w.id == id
    ensures FromWrites(log + [w], id, Some(PutNode(row, w.status, w.input, w.output, w.error, |log|)), at')
  {
    var n := Some(|log|);
    LastAtSnoc(log, GivesInput(id), at.input, w);
    LastAtSnoc(log, GivesOutput(id), at.output, w);
    LastAtSnoc(log, GivesError(id), at.error, w);
    FirstAtSnoc(log, Starts(id), at.started, w);
    FirstAtSnoc(log, Ends(id), at.ended, w);
    at' := Sources(
      if w.input.Some? then n else at.input,
      if w.output != Null then n else at.output,
      if w.error.Some? then n else at.error,
      if at.started.None? && w.status == NodeRunning then n else at.started,
      if at.ended.None? && w.status in {NodeCompleted, NodeFailed, NodeSkipped} then n else at.ended);
  }

  /** A node's row, outright: its input, output and error are those of the last write that gave one,
      its start and end the times of the first "running" and of the first terminal write. */
  lemma {:induction false} NodeRowFields(log: seq<Write>, id: NodeId) returns (at: Sources)
    ensures FromWrites(log, id, RowOf(Replay(log).nodes, id), at)
  {
    if log == [] {
      at := Sources(None, None, None, None, None);
    } else {
      var front, w := log[..|log| - 1], log[|log| - 1];
      assert log == front + [w];
      at := NodeRowFields(front, id);
      if w.NodeWrite? && w.id == id {
        at := OwnSnoc(front, id, RowOf(Replay(front).nodes, id), at, w);
      } else {
        ElsewhereSnoc(front, id, RowOf(Replay(front).nodes, id), at, w);
      }
    }
  }

  ghost predicate RunFromWrites(log: seq<Write>, row: RunRow, error: Option<nat>) {
    && LastAt(log, GivesMessage(), error)
    && row.error == (if error.Some? then log[error.value].message else None)
    && LastAt(log, StartsRun(), row.startedAt)
    && LastAt(log, EndsRun(), row.completedAt)
  }

  /** The run row's error is that of the last write that gave one, its start the time of the last
      "running", its end the time of the last verdict. */
  lemma {:induction false} RunRowFields(log: seq<Write>) returns (error: Option<nat>)
    ensures RunFromWrites(log, Replay(log).run, error)
  {
    if log == [] {
      error := None;
    } else {
      var front, w := log[..|log| - 1], log[|log| - 1];
      var row := Replay(front).run;
      assert log == front + [w];
      error := RunRowFields(front);
      LastAtSnoc(front, GivesMessage(), error, w);
      LastAtSnoc(front, StartsRun(), row.startedAt, w);
      LastAtSnoc(front, EndsRun(), row.completedAt, w);
      if w.RunWrite? && w.message.Some? {
        error := Some(|front|);
      }
    }
  }
}
