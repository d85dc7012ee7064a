/** Cancelling a run from the API while its worker is at an arbitrary point:
    signal, bounded poll, force-terminate, reconcile (api/app/services/workflow_run_service.py). */
module CancelProtocol {
  import opened Common
  import opened Dag
  import opened Engine
  import opened Readings
  import opened Safety
  import opened Pinned
  import opened Settlements
  import opened Outcomes
  import opened Traces
  import opened Persistence

  const POLL_ATTEMPTS: nat := 10

  /** What a started workflow has to run: a planned graph, or a definition whose planning fails
      with a message. */
  datatype Workload = Planned(input: RunInput) | Unplannable(message: string)

  /** The workflow execution as Temporal sees it. */
  datatype Execution = Open | Closed | Terminated

  /** Where the API's cancel_run stands. */
  datatype Api = Checking | Signalling | Polling(left: nat) | Terminating | Marking(error: string) | Answered

  /** `worker` is None until a worker picks the started workflow up; `signalled` says a cancel
      signal is waiting to be delivered or was delivered. */
  datatype World = World(worker: Option<State>, execution: Execution, signalled: bool, rows: Rows, api: Api)

  datatype Move =
    | PickUp
    | Work(e: Event)        // one step of the run and its persistence write
    | Deliver               // the signal handler runs in the workflow
    | Close                 // `run` has returned
    | ApiMove(now: nat)     // one remote call of cancel_run

  function Start(): World {
    World(None, Open, false, Inserted(), Checking)
  }

  /** The worker can take the step; the only step of an unplannable run is to give up. */
  ghost predicate CanWork(p: Workload, s: State, e: Event) {
    match p
    case Planned(r) => e != Cancel && Enabled(r.graph, s, e)
    case Unplannable(_) => e == Conclude && !s.phase.Ended?
  }

  ghost function Worked(p: Workload, s: State, e: Event): State
    requires CanWork(p, s, e)
  {
    match p
    case Planned(r) => Apply(r.graph, s, e)
    case Unplannable(message) =>
      s.(phase := Ended(RunFailed), failure := Some(message), log := s.log + [RunWrite(RunFailed, Some(message))])
  }

  ghost function Wrote(p: Workload, s: State, e: Event): Option<Write>
    requires CanWork(p, s, e)
  {
    match p
    case Planned(r) => Appended(r.graph, s, e)
    case Unplannable(message) => Some(RunWrite(RunFailed, Some(message)))
  }

  function CarriedBy(p: Workload): map<NodeId, Json> {
    if p.Planned? then p.input.carried else map[]
  }

  ghost predicate CanMove(p: Workload, w: World, m: Move) {
    match m
    case PickUp => w.execution == Open && w.worker.None?
    case Work(e) => w.execution == Open && w.worker.Some? && CanWork(p, w.worker.value, e)
    case Deliver => w.execution == Open && w.worker.Some? && w.signalled && !w.worker.value.phase.Ended?
    case Close => w.execution == Open && w.worker.Some? && w.worker.value.phase.Ended?
    case ApiMove(_) => w.api != Answered
  }

  /** A step of cancel_run. Polling sees only whether the execution is still open. */
  function ApiStep(w: World, now: nat): World {
    match w.api
    case Checking =>
      if w.execution == Open then w.(api := Signalling)
      else w.(api := Marking("workflow no longer running in Temporal"))
    case Signalling => w.(signalled := w.signalled || w.execution == Open, api := Polling(POLL_ATTEMPTS))
    case Polling(left) =>
      if left == 0 then w.(api := Terminating)
      else if w.execution == Open then w.(api := Polling(left - 1))
      else w.(api := Marking("reconciled after graceful cancel"))
    case Terminating =>
      if w.execution == Open
      then w.(execution := Terminated, api := Marking("force-terminated after cancel signal stalled"))
      else w.(api := Answered)
    case Marking(error) => w.(rows := Sweep(w.rows, error, now), api := Answered)
    case Answered => w
  }

  ghost function After(p: Workload, w: World, m: Move): World
    requires CanMove(p, w, m)
  {
    match m
    case PickUp => w.(worker := Some(Init(CarriedBy(p))), rows := Put(w.rows, RunWrite(RunRunning, None), 0))
    case Work(e) =>
      var s := w.worker.value;
      w.(worker := Some(Worked(p, s, e)),
         rows := match Wrote(p, s, e) case Some(wr) => Put(w.rows, wr, |s.log|) case None => w.rows)
    case Deliver => w.(worker := Some(w.worker.value.(cancelled := true)))
    case Close => w.(execution := Closed)
    case ApiMove(now) => ApiStep(w, now)
  }

  ghost predicate Moves(p: Workload, w: World, m: Move, w': World) {
    CanMove(p, w, m) && w' == After(p, w, m)
  }

  ghost predicate IsHistory(p: Workload, ms: seq<Move>, ws: seq<World>) {
    && |ws| == |ms| + 1
    && ws[0] == Start()
    && forall i :: 0 <= i < |ms| ==> Moves(p, ws[i], ms[i], ws[i + 1])
  }

  /** A planned workload comes from a plan; it may carry any outputs. */
  ghost predicate WorkloadOk(p: Workload) {
    p.Planned? ==> WellFormed(p.input.graph)
  }

  // ---------- the invariant ----------

  /** What the pinned graph keeps, traces included. */
  ghost predicate PlannedOk(g: Graph, rd: Readings, s: State) {
    rd.Keys == g.nodes.Keys && PinOk(g, rd, s) && TraceInv(Pin(g, s.carried), rd, Cleared(s))
  }

  /** The worker's state is one its run could be in. */
  ghost predicate WorkerOk(p: Workload, s: State)
    requires WorkloadOk(p)
  {
    match p
    case Planned(r) => s.carried == r.carried && PlannedOk(r.graph, PinnedReading(r.graph, r.carried), s)
    case Unplannable(message) =>
      if s.phase.Ended?
      then s.phase.verdict == RunFailed && s.log == [RunWrite(RunRunning, None), RunWrite(RunFailed, Some(message))]
      else s.log == [RunWrite(RunRunning, None)]
  }

  ghost predicate WorldOk(p: Workload, w: World)
    requires WorkloadOk(p)
  {
    && (w.worker.Some? ==> WorkerOk(p, w.worker.value))
    && (w.execution == Closed ==> w.worker.Some? && w.worker.value.phase.Ended?)
    && (w.api.Marking? || w.api.Answered? ==> w.execution != Open)
    && (w.execution == Terminated ==> w.api.Marking? || w.api.Answered?)
    && (!w.api.Answered? ==> UnsweptOk(w))
    && (w.api.Answered? ==> (UnsweptOk(w) && w.execution == Closed) || SweptOk(w))
  }

  /** Until the API reconciles, the rows are exactly the worker's writes. */
  ghost predicate UnsweptOk(w: World) {
    w.rows == if w.worker.Some? then Replay(w.worker.value.log) else Inserted()
  }

  ghost predicate SweptOk(w: World) {
    exists before, error, now :: UnsweptOk(w.(rows := before)) && w.rows == Sweep(before, error, now)
  }

  lemma PlannedOkKeeps(g: Graph, rd: Readings, s: State, e: Event, s': State)
    requires WellFormed(g) && PlannedOk(g, rd, s) && Step(g, s, e, s')
    ensures PlannedOk(g, rd, s') && s'.carried == s.carried
  {
    PinStepKeeps(g, rd, s, e, s');
    PinWellFormed(g, s.carried);
    TraceStep(Pin(g, s.carried), rd, Cleared(s), e, Cleared(s'));
  }

  lemma PlannedOkStarts(g: Graph, carried: map<NodeId, Json>)
    requires WellFormed(g)
    ensures PlannedOk(g, PinnedReading(g, carried), Init(carried))
  {
    PinIsSound(g, carried);
    PinInit(g, carried);
    InitTraces(Pin(g, carried), PinnedReading(g, carried), carried);
  }

  /** A step of a run, cancel signals included, keeps its state possible and adds its write. */
  lemma PlannedStepKeeps(p: Workload, s: State, e: Event, s': State)
    requires WorkloadOk(p) && p.Planned? && WorkerOk(p, s) && Step(p.input.graph, s, e, s')
    ensures WorkerOk(p, s')
    ensures s'.log == match Appended(p.input.graph, s, e) case Some(w) => s.log + [w] case None => s.log
  {
    var g := p.input.graph;
    PlannedOkKeeps(g, PinnedReading(g, p.input.carried), s, e, s');
    LogGrows(g, s, e, s');
  }

  lemma WorkKeeps(p: Workload, s: State, e: Event)
    requires WorkloadOk(p) && WorkerOk(p, s) && CanWork(p, s, e)
    ensures WorkerOk(p, Worked(p, s, e))
    ensures Worked(p, s, e).log == match Wrote(p, s, e) case Some(w) => s.log + [w] case None => s.log
  {
    if p.Planned? {
      PlannedStepKeeps(p, s, e, Worked(p, s, e));
    }
  }

  lemma DeliverKeeps(p: Workload, s: State)
    requires WorkloadOk(p) && WorkerOk(p, s) && !s.phase.Ended?
    ensures WorkerOk(p, s.(cancelled := true))
  {
    if p.Planned? {
      PlannedStepKeeps(p, s, Cancel, s.(cancelled := true));
    }
  }

  lemma PickUpKeeps(p: Workload)
    requires WorkloadOk(p)
    ensures WorkerOk(p, Init(CarriedBy(p)))
    ensures Replay(Init(CarriedBy(p)).log) == Put(Inserted(), RunWrite(RunRunning, None), 0)
  {
    ReplaySnoc([], RunWrite(RunRunning, None));
    assert [] + [RunWrite(RunRunning, None)] == [RunWrite(RunRunning, None)];
    if p.Planned? {
      PlannedOkStarts(p.input.graph, p.input.carried);
    }
  }

  lemma MarkingSweeps(w: World, now: nat, w': World)
    requires w.api.Marking? && UnsweptOk(w) && w' == ApiStep(w, now)
    ensures SweptOk(w')
  {
    assert UnsweptOk(w'.(rows := w.rows));
    assert w'.rows == Sweep(w.rows, w.api.error, now);
  }

  lemma ApiMoveFrame(w: World, now: nat, w': World)
    requires w.api != Answered && w' == ApiStep(w, now)
    ensures w'.worker == w.worker && (!w.api.Marking? ==> w'.rows == w.rows)
    ensures w'.execution == w.execution || (w.execution == Open && w'.execution == Terminated && w'.api.Marking?)
    ensures w'.api.Marking? ==> w'.execution != Open
    ensures w'.api.Answered? ==> w.api.Marking? || (w.api.Terminating? && w.execution != Open)
    ensures w.api.Marking? ==> w'.api.Answered?
  {
  }

  lemma ApiMoveKeeps(p: Workload, w: World, now: nat, w': World)
    requires WorkloadOk(p) && WorldOk(p, w) && w.api != Answered && w' == ApiStep(w, now)
    ensures WorldOk(p, w')
  {
    ApiMoveFrame(w, now, w');
    if w.api.Marking? {
      MarkingSweeps(w, now, w');
    }
  }

  lemma MoveKeeps(p: Workload, w: World, m: Move, w': World)
    requires WorkloadOk(p) && WorldOk(p, w) && Moves(p, w, m, w')
    ensures WorldOk(p, w')
  {
    match m
    case PickUp => PickUpKeeps(p);
    case Work(e) =>
      var s := w.worker.value;
      WorkKeeps(p, s, e);
      if Wrote(p, s, e).Some? {
        ReplaySnoc(s.log, Wrote(p, s, e).value);
      }
    case Deliver => DeliverKeeps(p, w.worker.value);
    case Close =>
    case ApiMove(now) => ApiMoveKeeps(p, w, now, w');
  }

  lemma MoveAt(p: Workload, ms: seq<Move>, ws: seq<World>, k: nat)
    requires IsHistory(p, ms, ws) && k < |ms|
    ensures Moves(p, ws[k], ms[k], ws[k + 1])
  {
  }

  lemma {:induction false} WorldThroughout(p: Workload, ms: seq<Move>, ws: seq<World>, k: nat)
    requires WorkloadOk(p) && IsHistory(p, ms, ws) && k < |ws|
    ensures WorldOk(p, ws[k])
  {
    if k == 0 {
      StartIsOk(p);
    } else {
      var before := k - 1;
      WorldThroughout(p, ms, ws, before);
      MoveAt(p, ms, ws, before);
      MoveKeeps(p, ws[before], ms[before], ws[k]);
    }
  }

  lemma StartIsOk(p: Workload)
    requires WorkloadOk(p)
    ensures WorldOk(p, Start())
  {
  }

  // ---------- what the caller gets ----------

  ghost predicate AllRowsTerminal(rows: Rows) {
    !RunLive(rows.run.status) && forall id :: id in rows.nodes ==> !NodeLive(rows.nodes[id].status)
  }

  /** The rows of an ended run: the verdict, and no node left pending or running. */
  lemma EndedRowsTerminal(p: Workload, s: State)
    requires WorkloadOk(p) && WorkerOk(p, s) && s.phase.Ended?
    ensures Replay(s.log).run.status == s.phase.verdict
    ensures AllRowsTerminal(Replay(s.log))
  {
    match p
    case Planned(r) => PlannedRowsTerminal(Pin(r.graph, r.carried), PinnedReading(r.graph, r.carried), Cleared(s));
    case Unplannable(message) => UnplannableRows(message, s.log);
  }

  lemma PlannedRowsTerminal(g: Graph, rd: Readings, s: State)
    requires rd.Keys == g.nodes.Keys && Inv(g, rd, s) && TraceInv(g, rd, s) && s.phase.Ended?
    ensures Replay(s.log).run.status == s.phase.verdict
    ensures AllRowsTerminal(Replay(s.log))
  {
    RunRowShowsTrace(s.log);
    forall id | id in Replay(s.log).nodes ensures !NodeLive(Replay(s.log).nodes[id].status) {
      RowsAgree(g, rd, s.log, id);
      RowShowsTrace(s.log, id);
      assert TraceFits(rd, s, id, Statuses(s.log, id));
      assert id !in s.tasks;
    }
  }

  lemma UnplannableRows(message: string, log: seq<Write>)
    requires log == [RunWrite(RunRunning, None), RunWrite(RunFailed, Some(message))]
    ensures Replay(log).run.status == RunFailed && Replay(log).nodes == map[]
  {
    var running := [RunWrite(RunRunning, None)];
    ReplaySnoc([], running[0]);
    ReplaySnoc(running, RunWrite(RunFailed, Some(message)));
    assert [] + [running[0]] == running && log == running + [RunWrite(RunFailed, Some(message))];
  }

  /** When cancel_run returns, the run row is terminal and no node row is pending or running,
      however the worker, the signal and the poll interleaved. */
  lemma CancelLeavesNothingLive(p: Workload, ms: seq<Move>, ws: seq<World>, k: nat)
    requires WorkloadOk(p) && IsHistory(p, ms, ws) && k < |ws| && ws[k].api == Answered
    ensures AllRowsTerminal(ws[k].rows)
  {
    WorldThroughout(p, ms, ws, k);
    if UnsweptOk(ws[k]) && ws[k].execution == Closed {
      EndedRowsTerminal(p, ws[k].worker.value);
    }
  }

  /** A run whose row is terminal in the worker's own writes has ended. */
  lemma TerminalRowEnded(p: Workload, s: State)
    requires WorkloadOk(p) && WorkerOk(p, s) && !RunLive(Replay(s.log).run.status)
    ensures s.phase.Ended?
  {
    match p
    case Planned(_) => RunTraceShowsEnd(Cleared(s));
    case Unplannable(_) => if !s.phase.Ended? { FirstWriteLive(s.log); }
  }

  lemma RunTraceShowsEnd(s: State)
    requires RunTraceOk(s) && !RunLive(Replay(s.log).run.status)
    ensures s.phase.Ended?
  {
    RunRowShowsTrace(s.log);
  }

  lemma FirstWriteLive(log: seq<Write>)
    requires log == [] || log == [RunWrite(RunRunning, None)]
    ensures RunLive(Replay(log).run.status)
  {
    ReplaySnoc([], RunWrite(RunRunning, None));
    assert [] + [RunWrite(RunRunning, None)] == [RunWrite(RunRunning, None)];
  }

  /** The worker still writes only while the run row is live. */
  lemma WorkMeansLive(p: Workload, w: World, e: Event)
    requires WorkloadOk(p) && w.worker.Some? && WorkerOk(p, w.worker.value) && CanWork(p, w.worker.value, e)
    requires UnsweptOk(w)
    ensures RunLive(w.rows.run.status)
  {
    if !RunLive(w.rows.run.status) {
      TerminalRowEnded(p, w.worker.value);
      EndedCannotWork(p, w.worker.value, e);
    }
  }

  lemma EndedCannotWork(p: Workload, s: State, e: Event)
    requires s.phase.Ended?
    ensures !CanWork(p, s, e)
  {
  }

  lemma OpenIsUnswept(p: Workload, w: World)
    requires WorkloadOk(p) && WorldOk(p, w) && w.execution == Open
    ensures UnsweptOk(w) && (w.worker.Some? ==> WorkerOk(p, w.worker.value))
  {
  }

  /** The other moves change a run row only when a worker first picks the workflow up, or when the
      API finds it live. */
  lemma OtherMovesRunRow(p: Workload, w: World, m: Move, w': World)
    requires Moves(p, w, m, w') && !m.Work? && (w.execution == Open ==> UnsweptOk(w))
    requires !RunLive(w.rows.run.status)
    ensures w'.rows.run == w.rows.run
  {
  }

  lemma RowsSteady(p: Workload, w: World, m: Move, w': World)
    requires WorkloadOk(p) && WorldOk(p, w) && Moves(p, w, m, w')
    requires !RunLive(w.rows.run.status)
    ensures w'.rows.run == w.rows.run
  {
    if w.execution == Open {
      OpenIsUnswept(p, w);
    }
    if m.Work? {
      WorkMeansLive(p, w, m.e);
    } else {
      OtherMovesRunRow(p, w, m, w');
    }
  }

  lemma NextRowSteady(p: Workload, ms: seq<Move>, ws: seq<World>, k: nat)
    requires WorkloadOk(p) && IsHistory(p, ms, ws) && k < |ms|
    requires !RunLive(ws[k].rows.run.status)
    ensures ws[k + 1].rows.run == ws[k].rows.run
  {
    WorldThroughout(p, ms, ws, k);
    MoveAt(p, ms, ws, k);
    RowsSteady(p, ws[k], ms[k], ws[k + 1]);
  }

  /** A terminal run row, whether the worker or the API wrote it, is never changed again:
      the API does not overwrite the worker's verdict, nor the worker the API's. */
  lemma {:induction false} TerminalRunRowIsFinal(p: Workload, ms: seq<Move>, ws: seq<World>, k: nat, later: nat)
    requires WorkloadOk(p) && IsHistory(p, ms, ws) && k <= later < |ws|
    requires !RunLive(ws[k].rows.run.status)
    ensures ws[later].rows.run == ws[k].rows.run
  {
    if k < later {
      TerminalRunRowIsFinal(p, ms, ws, k, later - 1);
      NextRowSteady(p, ms, ws, later - 1);
    }
  }

  /** A run the worker ended keeps the worker's verdict. */
  lemma WorkersVerdictStands(p: Workload, ms: seq<Move>, ws: seq<World>, k: nat)
    requires WorkloadOk(p) && IsHistory(p, ms, ws) && k < |ws|
    requires ws[k].worker.Some? && ws[k].worker.value.phase.Ended?
    ensures ws[k].rows.run.status == ws[k].worker.value.phase.verdict
  {
    WorldThroughout(p, ms, ws, k);
    EndedRowsTerminal(p, ws[k].worker.value);
  }

  // ---------- terminal node rows ----------

  /** A trace goes on only after "running". */
  lemma OnlyRunningGoesOn(rd: Readings, s: State, id: NodeId, t: seq<NodeStatus>, status: NodeStatus)
    requires id in rd && TraceFits(rd, s, id, t + [status]) && t != []
    ensures t[|t| - 1] == NodeRunning
  {
    var longer := t + [status];
    assert longer[|t| - 1] == t[|t| - 1] && |longer| >= 2;
  }

  lemma LoggedIsNode(g: Graph, rd: Readings, log: seq<Write>, w: Write)
    requires rd.Keys == g.nodes.Keys && LogOk(g, rd, log + [w]) && w.NodeWrite?
    ensures w.id in rd
  {
    assert w in log + [w];
  }

  /** So no write reaches a node whose row is terminal. */
  lemma TerminalIsLastWrite(g: Graph, rd: Readings, s: State, log: seq<Write>, w: Write, id: NodeId)
    requires rd.Keys == g.nodes.Keys && LogOk(g, rd, s.log) && s.log == log + [w]
    requires forall n :: n in rd ==> TraceFits(rd, s, n, Statuses(s.log, n))
    requires id in Replay(log).nodes && !NodeLive(Replay(log).nodes[id].status)
    ensures !(w.NodeWrite? && w.id == id)
  {
    RowShowsTrace(log, id);
    if w.NodeWrite? && w.id == id {
      LoggedIsNode(g, rd, log, w);
      StatusesSnoc(log, w, id);
      OnlyRunningGoesOn(rd, s, id, Statuses(log, id), w.status);
    }
  }

  lemma PutElsewhere(rows: Rows, w: Write, now: nat, id: NodeId)
    requires id in rows.nodes && !(w.NodeWrite? && w.id == id)
    ensures id in Put(rows, w, now).nodes && Put(rows, w, now).nodes[id] == rows.nodes[id]
  {
  }

  lemma UnplannableWritesNoNode(p: Workload, s: State, e: Event)
    requires p.Unplannable? && CanWork(p, s, e)
    ensures Wrote(p, s, e).Some? && Wrote(p, s, e).value.RunWrite?
  {
  }

  lemma WorkSparesTerminal(p: Workload, s: State, e: Event, w: Write, id: NodeId)
    requires WorkloadOk(p) && WorkerOk(p, s) && CanWork(p, s, e) && Wrote(p, s, e) == Some(w)
    requires id in Replay(s.log).nodes && !NodeLive(Replay(s.log).nodes[id].status)
    ensures !(w.NodeWrite? && w.id == id)
  {
    WorkKeeps(p, s, e);
    match p
    case Planned(r) =>
      var s' := Cleared(Worked(p, s, e));
      TerminalIsLastWrite(Pin(r.graph, r.carried), PinnedReading(r.graph, r.carried), s', s.log, w, id);
    case Unplannable(_) => UnplannableWritesNoNode(p, s, e);
  }

  lemma WorkNodeRow(p: Workload, w: World, e: Event, w': World, id: NodeId)
    requires WorkloadOk(p) && UnsweptOk(w) && w.worker.Some? && WorkerOk(p, w.worker.value)
    requires Moves(p, w, Work(e), w') && id in w.rows.nodes && !NodeLive(w.rows.nodes[id].status)
    ensures id in w'.rows.nodes && w'.rows.nodes[id] == w.rows.nodes[id]
  {
    var s := w.worker.value;
    if Wrote(p, s, e).Some? {
      WorkSparesTerminal(p, s, e, Wrote(p, s, e).value, id);
      PutElsewhere(w.rows, Wrote(p, s, e).value, |s.log|, id);
    }
  }

  lemma OtherMovesNodeRow(p: Workload, w: World, m: Move, w': World, id: NodeId)
    requires Moves(p, w, m, w') && !m.Work? && id in w.rows.nodes && !NodeLive(w.rows.nodes[id].status)
    ensures id in w'.rows.nodes && w'.rows.nodes[id] == w.rows.nodes[id]
  {
  }

  lemma NodeRowSteady(p: Workload, w: World, m: Move, w': World, id: NodeId)
    requires WorkloadOk(p) && WorldOk(p, w) && Moves(p, w, m, w')
    requires id in w.rows.nodes && !NodeLive(w.rows.nodes[id].status)
    ensures id in w'.rows.nodes && w'.rows.nodes[id] == w.rows.nodes[id]
  {
    if m.Work? {
      OpenIsUnswept(p, w);
      WorkNodeRow(p, w, m.e, w', id);
    } else {
      OtherMovesNodeRow(p, w, m, w', id);
    }
  }

  /** A terminal node row is never changed again either, by the worker or by the reconciliation. */
  lemma {:induction false} TerminalNodeRowIsFinal(p: Workload, ms: seq<Move>, ws: seq<World>, k: nat, later: nat,
                                                  id: NodeId)
    requires WorkloadOk(p) && IsHistory(p, ms, ws) && k <= later < |ws|
    requires id in ws[k].rows.nodes && !NodeLive(ws[k].rows.nodes[id].status)
    ensures id in ws[later].rows.nodes && ws[later].rows.nodes[id] == ws[k].rows.nodes[id]
  {
    if k < later {
      var before := later - 1;
      TerminalNodeRowIsFinal(p, ms, ws, k, before, id);
      WorldThroughout(p, ms, ws, before);
      MoveAt(p, ms, ws, before);
      NodeRowSteady(p, ws[before], ms[before], ws[later], id);
    }
  }

  // ---------- the request always returns ----------

  /** Remote calls cancel_run still makes at most. */
  function CallsLeft(api: Api): nat {
    match api
    case Checking => POLL_ATTEMPTS + 5
    case Signalling => POLL_ATTEMPTS + 4
    case Polling(left) => left + 3
    case Terminating => 2
    case Marking(_) => 1
    case Answered => 0
  }

  function ApiMoves(ms: seq<Move>): nat {
    if ms == [] then 0 else ApiMoves(ms[..|ms| - 1]) + if ms[|ms| - 1].ApiMove? then 1 else 0
  }

  /** Whatever the worker does meanwhile, cancel_run returns after at most fifteen calls, and
      until then its next call is always possible. */
  lemma {:induction false} CancelReturns(p: Workload, ms: seq<Move>, ws: seq<World>, k: nat)
    requires IsHistory(p, ms, ws) && k < |ws|
    ensures ApiMoves(ms[..k]) + CallsLeft(ws[k].api) <= 15
    ensures ws[k].api != Answered ==> CanMove(p, ws[k], ApiMove(0))
    ensures ApiMoves(ms[..k]) == 15 ==> ws[k].api == Answered
  {
    if k > 0 {
      CancelReturns(p, ms, ws, k - 1);
      CallsFall(p, ws[k - 1], ms[k - 1], ws[k - 1 + 1]);
      assert ms[..k][..k - 1] == ms[..k - 1];
    }
  }

  lemma CallsFall(p: Workload, w: World, m: Move, w': World)
    requires Moves(p, w, m, w')
    ensures CallsLeft(w'.api) + (if m.ApiMove? then 1 else 0) <= CallsLeft(w.api)
  {
  }
}
