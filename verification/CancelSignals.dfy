/** What cancel_run does in which order, and what its caller and the rows show at the end: the signal
    comes before every poll, force-termination only after ten polls that found the workflow open, and
    a delivered signal starts nothing more (api/app/services/workflow_run_service.py,
    api/app/services/temporal_client.py). */
module CancelSignals {
  import opened Common
  import opened Dag
  import opened Engine
  import opened Readings
  import opened Safety
  import opened Pinned
  import opened Termination
  import opened Persistence
  import opened CancelProtocol

  // ---------- the signal comes first ----------

  /** A call of cancel_run in its polling loop that finds the workflow still open. */
  ghost predicate FoundOpen(w: World, m: Move) {
    m.ApiMove? && w.api.Polling? && w.api.left > 0 && w.execution == Open
  }

  /** How many of the first k moves are such calls. */
  ghost function OpenPolls(ms: seq<Move>, ws: seq<World>, k: nat): nat
    requires k <= |ms| && k <= |ws|
  {
    if k == 0 then 0 else OpenPolls(ms, ws, k - 1) + if FoundOpen(ws[k - 1], ms[k - 1]) then 1 else 0
  }

  /** Where cancel_run stands, given how many polls found the workflow open. */
  ghost predicate InOrder(w: World, polls: nat) {
    && (w.api.Checking? || w.api.Signalling? ==> !w.signalled && polls == 0)
    && (w.api.Polling? || w.api.Terminating? ==> w.signalled || w.execution != Open)
    && (w.api.Polling? ==> polls + w.api.left == 10)
    && (w.api.Terminating? ==> polls == 10)
    && (w.execution == Terminated ==> w.signalled && polls == 10)
    && (w.worker.Some? && w.worker.value.cancelled ==> w.signalled)
  }

  /** Why the rows are about to be marked. */
  ghost predicate Reasoned(w: World) {
    w.api.Marking? ==>
      || (w.execution == Closed && !w.signalled && w.api.error == "workflow no longer running in Temporal")
      || (w.execution == Closed && w.api.error == "reconciled after graceful cancel")
      || (w.execution == Terminated && w.api.error == "force-terminated after cancel signal stalled")
  }

  lemma WorkNeverCancels(p: Workload, s: State, e: Event)
    requires CanWork(p, s, e)
    ensures Worked(p, s, e).cancelled == s.cancelled
  {
  }

  lemma ApiKeepsOrder(w: World, now: nat, polls: nat, w': World)
    requires InOrder(w, polls) && w.api != Answered && w' == ApiStep(w, now)
    ensures InOrder(w', polls + if FoundOpen(w, ApiMove(now)) then 1 else 0)
  {
  }

  lemma MoveKeepsOrder(p: Workload, w: World, m: Move, w': World, polls: nat)
    requires InOrder(w, polls) && Moves(p, w, m, w')
    ensures InOrder(w', polls + if FoundOpen(w, m) then 1 else 0)
  {
    match m
    case Work(e) => WorkNeverCancels(p, w.worker.value, e);
    case ApiMove(now) => ApiKeepsOrder(w, now, polls, w');
    case _ =>
  }

  /** In every world of every history: cancel_run polls or terminates only a workflow that it has
      signalled or that has ended; it terminates only after ten polls that found the workflow open;
      and a worker is cancelled only by the signal. */
  lemma {:induction false} SignalComesFirst(p: Workload, ms: seq<Move>, ws: seq<World>, k: nat)
    requires IsHistory(p, ms, ws) && k < |ws|
    ensures InOrder(ws[k], OpenPolls(ms, ws, k))
  {
    if k > 0 {
      SignalComesFirst(p, ms, ws, k - 1);
      MoveAt(p, ms, ws, k - 1);
      MoveKeepsOrder(p, ws[k - 1], ms[k - 1], ws[k], OpenPolls(ms, ws, k - 1));
    }
  }

  /** What the world invariant says of the execution. */
  ghost predicate ExecutionFits(w: World) {
    && (w.api.Marking? || w.api.Answered? ==> w.execution != Open)
    && (w.execution == Terminated ==> w.api.Marking? || w.api.Answered?)
  }

  lemma MoveKeepsReason(p: Workload, w: World, m: Move, w': World, polls: nat)
    requires ExecutionFits(w) && InOrder(w, polls) && Reasoned(w) && Moves(p, w, m, w')
    ensures Reasoned(w')
  {
  }

  lemma ExecutionOk(p: Workload, w: World)
    requires WorkloadOk(p) && WorldOk(p, w)
    ensures ExecutionFits(w)
  {
  }

  lemma NextReason(p: Workload, ms: seq<Move>, ws: seq<World>, k: nat)
    requires WorkloadOk(p) && IsHistory(p, ms, ws) && k < |ms| && Reasoned(ws[k])
    ensures Reasoned(ws[k + 1])
  {
    WorldThroughout(p, ms, ws, k);
    ExecutionOk(p, ws[k]);
    SignalComesFirst(p, ms, ws, k);
    MoveAt(p, ms, ws, k);
    MoveKeepsReason(p, ws[k], ms[k], ws[k + 1], OpenPolls(ms, ws, k));
  }

  /** Each of the three texts has its case: never signalled because already closed, closed after the
      signal, terminated. */
  lemma {:induction false} ReasonFits(p: Workload, ms: seq<Move>, ws: seq<World>, k: nat)
    requires WorkloadOk(p) && IsHistory(p, ms, ws) && k < |ws|
    ensures Reasoned(ws[k])
  {
    if k > 0 {
      ReasonFits(p, ms, ws, k - 1);
      NextReason(p, ms, ws, k - 1);
    }
  }

  /** A request for a workflow that has already ended when it checks. */
  ghost predicate FoundGone(w: World) {
    w.api.Answered? || w.api == Marking("workflow no longer running in Temporal")
  }

  lemma GoneStaysUnsignalled(p: Workload, w: World, m: Move, w': World)
    requires Moves(p, w, m, w') && FoundGone(w)
    ensures FoundGone(w') && w'.signalled == w.signalled
  {
  }

  /** It reconciles at once and never signals. */
  lemma {:induction false} GoneIsNotSignalled(p: Workload, ms: seq<Move>, ws: seq<World>, k: nat, later: nat)
    requires IsHistory(p, ms, ws) && k < later < |ws|
    requires ws[k].api.Checking? && ws[k].execution != Open && ms[k].ApiMove?
    ensures ws[k + 1].api == Marking("workflow no longer running in Temporal")
    ensures FoundGone(ws[later]) && !ws[later].signalled
  {
    SignalComesFirst(p, ms, ws, k);
    MoveAt(p, ms, ws, k);
    if later > k + 1 {
      GoneIsNotSignalled(p, ms, ws, k, later - 1);
      MoveAt(p, ms, ws, later - 1);
      GoneStaysUnsignalled(p, ws[later - 1], ms[later - 1], ws[later]);
    }
  }

  /** A poll that no longer finds the workflow open is the last. */
  lemma PollEnds(p: Workload, w: World, now: nat, w': World)
    requires Moves(p, w, ApiMove(now), w') && w.api.Polling? && w.api.left > 0
    ensures w'.api == if w.execution == Open then Polling(w.api.left - 1)
                      else Marking("reconciled after graceful cancel")
    ensures w'.rows == w.rows && w'.execution == w.execution && w'.signalled == w.signalled
  {
  }

  // ---------- the signal arrives ----------

  /** A signalled worker that has not ended can be told so, whatever it is doing; this sets its flag
      and changes nothing else. */
  lemma SignalArrives(p: Workload, w: World)
    requires w.execution == Open && w.signalled && w.worker.Some? && !w.worker.value.phase.Ended?
    ensures exists w' :: Moves(p, w, Deliver, w') && w' == w.(worker := Some(w.worker.value.(cancelled := true)))
  {
    assert Moves(p, w, Deliver, After(p, w, Deliver));
  }

  lemma SomethingToDo(p: Workload, s: State) returns (e: Event)
    requires WorkloadOk(p) && WorkerOk(p, s) && !s.phase.Ended?
    ensures CanWork(p, s, e)
  {
    match p
    case Planned(r) =>
      var rd := PinnedReading(r.graph, r.carried);
      PinIsSound(r.graph, r.carried);
      e := StateHasStep(Pin(r.graph, r.carried), rd, Cleared(s));
      SameEnabled(r.graph, rd, s, e);
    case Unplannable(_) => e := Conclude;
  }

  /** An open workflow can always go on: a worker can pick it up, an ended one closes, and one that has
      not ended can work. */
  lemma WorkflowGoesOn(p: Workload, w: World)
    requires WorkloadOk(p) && WorldOk(p, w) && w.execution == Open
    ensures w.worker.None? ==>
      exists w' :: Moves(p, w, PickUp, w') && w'.worker == Some(Init(CarriedBy(p))) && w'.rows.run.status == RunRunning
    ensures w.worker.Some? && w.worker.value.phase.Ended? ==>
      exists w' :: Moves(p, w, Close, w') && w' == w.(execution := Closed)
    ensures w.worker.Some? && !w.worker.value.phase.Ended? ==> exists e :: CanMove(p, w, Work(e))
  {
    if w.worker.None? {
      assert Moves(p, w, PickUp, After(p, w, PickUp));
    } else if w.worker.value.phase.Ended? {
      assert Moves(p, w, Close, After(p, w, Close));
    } else {
      var e := SomethingToDo(p, w.worker.value);
      assert CanMove(p, w, Work(e));
    }
  }

  /** From there on the worker opens no round and starts no node. */
  lemma CancelledStartsNothing(g: Graph, s: State, e: Event, s': State)
    requires Step(g, s, e, s') && s.cancelled
    ensures s'.cancelled && !e.OpenRound?
    ensures e.Start? ==> s'.tasks == s.tasks[e.id := Finished(Stopped)]
                         && s'.log == s.log + [NodeWrite(e.id, NodeSkipped, None, Null, None)]
  {
  }

  /** When a row's node started, if it did. */
  ghost function StartOf(rows: Rows, id: NodeId): Option<nat> {
    if id in rows.nodes then rows.nodes[id].startedAt else None
  }

  lemma SweepStartsNothing(rows: Rows, error: string, now: nat, id: NodeId)
    ensures StartOf(Sweep(rows, error, now), id) == StartOf(rows, id)
  {
  }

  lemma WriteStartsNothing(rows: Rows, w: Write, now: nat, id: NodeId)
    requires !(w.NodeWrite? && w.status == NodeRunning)
    ensures StartOf(Put(rows, w, now), id) == StartOf(rows, id)
  {
  }

  lemma CancelledWritesNoStart(p: Workload, s: State, e: Event)
    requires CanWork(p, s, e) && s.cancelled && Wrote(p, s, e).Some?
    ensures var w := Wrote(p, s, e).value; !(w.NodeWrite? && w.status == NodeRunning)
  {
  }

  lemma MoveStartsNothing(p: Workload, w: World, m: Move, w': World, id: NodeId)
    requires Moves(p, w, m, w') && w.worker.Some? && w.worker.value.cancelled
    ensures w'.worker.Some? && w'.worker.value.cancelled
    ensures StartOf(w'.rows, id) == StartOf(w.rows, id)
  {
    match m
    case Work(e) =>
      var s := w.worker.value;
      WorkNeverCancels(p, s, e);
      if Wrote(p, s, e).Some? {
        CancelledWritesNoStart(p, s, e);
        WriteStartsNothing(w.rows, Wrote(p, s, e).value, |s.log|, id);
      }
    case ApiMove(now) =>
      if w.api.Marking? {
        SweepStartsNothing(w.rows, w.api.error, now, id);
      }
    case _ =>
  }

  /** After the signal was delivered no node starts any more: every start time in the rows was there
      before. */
  lemma {:induction false} NothingStartsAfterDelivery(p: Workload, ms: seq<Move>, ws: seq<World>, k: nat, later: nat,
                                                      id: NodeId)
    requires IsHistory(p, ms, ws) && k <= later < |ws|
    requires ws[k].worker.Some? && ws[k].worker.value.cancelled
    ensures ws[later].worker.Some? && ws[later].worker.value.cancelled
    ensures StartOf(ws[later].rows, id) == StartOf(ws[k].rows, id)
  {
    if k < later {
      NothingStartsAfterDelivery(p, ms, ws, k, later - 1, id);
      MoveAt(p, ms, ws, later - 1);
      MoveStartsNothing(p, ws[later - 1], ms[later - 1], ws[later], id);
    }
  }

  // ---------- what the rows show in the end ----------

  /** Rows as the worker left them, with what was pending or running marked. */
  ghost predicate MarkedFrom(before: Rows, after: Rows) {
    && (if before.run.status in {RunPending, RunRunning}
        then after.run.status == RunCancelled && after.run.completedAt.Some?
             && after.run.startedAt == before.run.startedAt
             && after.run.error == Some("force-terminated after cancel signal stalled")
        else after.run == before.run)
    && after.nodes.Keys == before.nodes.Keys
    && forall id :: id in before.nodes ==>
         if before.nodes[id].status in {NodePending, NodeRunning}
         then after.nodes[id].completedAt.Some?
              && after.nodes[id]
                 == before.nodes[id].(status := NodeSkipped, completedAt := after.nodes[id].completedAt)
         else after.nodes[id] == before.nodes[id]
  }

  lemma SweepMarks(before: Rows, now: nat)
    ensures MarkedFrom(before, Sweep(before, "force-terminated after cancel signal stalled", now))
  {
  }

  /** A mark on rows without anything pending or running leaves them as they are. */
  lemma SweepIdle(rows: Rows, error: string, now: nat)
    requires AllRowsTerminal(rows)
    ensures Sweep(rows, error, now) == rows
  {
    assert Sweep(rows, error, now).nodes == rows.nodes;
  }

  /** What the worker wrote. */
  ghost function Written(w: World): Rows {
    if w.worker.Some? then Replay(w.worker.value.log) else Inserted()
  }

  ghost predicate RowsSettled(w: World) {
    w.api.Answered? ==>
      || (w.execution == Closed && w.rows == Written(w))
      || (w.execution == Terminated && MarkedFrom(Written(w), w.rows))
  }

  lemma ClosedRows(p: Workload, w: World)
    requires WorkloadOk(p) && WorldOk(p, w) && !w.api.Answered? && w.execution == Closed
    ensures w.rows == Written(w) && AllRowsTerminal(w.rows)
  {
    EndedRowsTerminal(p, w.worker.value);
  }

  lemma MarkingClosed(w: World, now: nat)
    requires w.api.Marking? && w.rows == Written(w) && AllRowsTerminal(w.rows)
    ensures ApiStep(w, now).rows == Written(ApiStep(w, now))
  {
    SweepIdle(w.rows, w.api.error, now);
  }

  lemma MarkingTerminated(w: World, now: nat)
    requires UnsweptOk(w) && Reasoned(w) && w.api.Marking? && w.execution == Terminated
    ensures MarkedFrom(Written(w), ApiStep(w, now).rows)
  {
    SweepMarks(w.rows, now);
  }

  lemma Unswept(p: Workload, w: World)
    requires WorkloadOk(p) && WorldOk(p, w) && !w.api.Answered?
    ensures UnsweptOk(w)
  {
  }

  lemma MarkingFrame(w: World, now: nat)
    requires w.api.Marking?
    ensures var w' := ApiStep(w, now);
      w'.worker == w.worker && w'.execution == w.execution && w'.api.Answered?
  {
  }

  lemma MarkingSettles(p: Workload, w: World, now: nat, w': World)
    requires WorkloadOk(p) && WorldOk(p, w) && ExecutionFits(w) && Reasoned(w)
    requires w.api.Marking? && w' == ApiStep(w, now)
    ensures RowsSettled(w')
  {
    MarkingFrame(w, now);
    if w.execution == Closed {
      ClosedRows(p, w);
      MarkingClosed(w, now);
    } else {
      Unswept(p, w);
      MarkingTerminated(w, now);
    }
  }

  /** Moves other than the marking itself. */
  lemma OtherMoveSettles(p: Workload, w: World, m: Move, w': World)
    requires ExecutionFits(w) && RowsSettled(w) && Moves(p, w, m, w') && !(m.ApiMove? && w.api.Marking?)
    requires w.execution == Closed ==> w.api.Answered? || w.rows == Written(w)
    ensures RowsSettled(w')
  {
  }

  lemma MoveSettles(p: Workload, w: World, m: Move, w': World)
    requires WorkloadOk(p) && WorldOk(p, w) && Reasoned(w) && RowsSettled(w) && Moves(p, w, m, w')
    ensures RowsSettled(w')
  {
    ExecutionOk(p, w);
    if m.ApiMove? && w.api.Marking? {
      MarkingSettles(p, w, m.now, w');
    } else {
      if w.execution == Closed && !w.api.Answered? {
        ClosedRows(p, w);
      }
      OtherMoveSettles(p, w, m, w');
    }
  }

  lemma NextSettles(p: Workload, ms: seq<Move>, ws: seq<World>, k: nat)
    requires WorkloadOk(p) && IsHistory(p, ms, ws) && k < |ms| && RowsSettled(ws[k])
    ensures RowsSettled(ws[k + 1])
  {
    WorldThroughout(p, ms, ws, k);
    ReasonFits(p, ms, ws, k);
    MoveAt(p, ms, ws, k);
    MoveSettles(p, ws[k], ms[k], ws[k + 1]);
  }

  /** When cancel_run has returned: a workflow that closed shows exactly what its worker wrote; a
      terminated one shows what its worker wrote with a live run row "cancelled", for the one reason
      that fits, and live node rows "skipped". */
  lemma {:induction false} CancelledRowsShow(p: Workload, ms: seq<Move>, ws: seq<World>, k: nat)
    requires WorkloadOk(p) && IsHistory(p, ms, ws) && k < |ws|
    ensures RowsSettled(ws[k])
  {
    if k > 0 {
      CancelledRowsShow(p, ms, ws, k - 1);
      NextSettles(p, ms, ws, k - 1);
    }
  }
}
