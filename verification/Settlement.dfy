/** Why a run ends as it does: every mark, completion and departure from `remaining` has a
    reason in the graph, so the final sets solve equations that do not mention the run. */
module Settlements {
  import opened Common
  import opened Dag
  import opened Engine
  import opened Readings
  import opened Safety
  import opened Pinned

  // ---------- reasons ----------

  /** A completed upstream condition came out false. */
  ghost predicate Marked(g: Graph, rd: Readings, completed: set<NodeId>, n: NodeId) {
    exists u :: u in Upstream(g, n) && u in completed && FalseReading(g, rd, u)
  }

  ghost predicate MarksExplained(g: Graph, rd: Readings, s: State) {
    forall n :: n in s.skipped ==> Marked(g, rd, s.completed, n)
  }

  ghost predicate CompletionsExplained(g: Graph, rd: Readings, s: State) {
    forall n :: n in s.completed ==> n in s.carried || (Settled(g, s, n) && n in rd && rd[n] != Output(Null))
  }

  /** Cancelled dispatches follow the signal; other stopped tasks were marked. */
  ghost predicate StopsExplained(s: State) {
    forall id :: id in s.tasks && s.tasks[id] == Finished(Stopped) ==> id in s.skipped || s.cancelled
  }

  /** Past the carry loop, and on the way to "completed" as far as the run can tell. */
  ghost predicate Hopeful(s: State) {
    match s.phase
    case Carrying(_) => false
    case Draining(_, v) => v == RunCompleted
    case Ended(v) => v == RunCompleted
    case _ => !s.cancelled && s.failure.None?
  }

  /** A node that left `remaining` without completing was settled, and marked or without output. */
  ghost predicate DeparturesExplained(g: Graph, rd: Readings, s: State) {
    Hopeful(s) ==>
      forall n :: n in g.nodes && n !in s.remaining && n !in s.completed ==>
        Settled(g, s, n) && (n in s.skipped || (n in rd && rd[n] == Output(Null)))
  }

  /** A "completed" row was carried, or written for a node whose upstreams were settled. */
  ghost predicate WritesExplained(g: Graph, s: State) {
    forall w :: w in s.log && w.NodeWrite? && w.status == NodeCompleted ==> w.id in s.carried || Settled(g, s, w.id)
  }

  ghost predicate Explained(g: Graph, rd: Readings, s: State) {
    MarksExplained(g, rd, s) && CompletionsExplained(g, rd, s) && WritesExplained(g, s)
  }

  ghost predicate Accounted(g: Graph, rd: Readings, s: State) {
    StopsExplained(s) && DeparturesExplained(g, rd, s)
  }

  // ---------- every step keeps the reasons ----------

  /** Completing a node marks its successors for a reason. */
  lemma CompleteKeepsMarks(g: Graph, rd: Readings, s: State, id: NodeId, output: Json)
    requires MarksExplained(g, rd, s) && id in g.nodes && id in rd && rd[id] == Output(output)
    ensures MarksExplained(g, rd, Complete(g, s, id, output))
  {
    var s' := Complete(g, s, id, output);
    forall n | n in s'.skipped ensures Marked(g, rd, s'.completed, n) {
      if n in s.skipped {
        assert Marked(g, rd, s.completed, n);
      } else {
        assert FalseReading(g, rd, id) && id in Upstream(g, n);
      }
    }
  }

  lemma CarryKeepsReasons(g: Graph, rd: Readings, s: State, s': State)
    requires Inv(g, rd, s) && Explained(g, rd, s) && Step(g, s, CarryNext, s')
    ensures Explained(g, rd, s')
  {
    var id := g.plan[s.phase.next].id;
    if id in s.carried {
      var w := NodeWrite(id, NodeCompleted, None, s.carried[id], None);
      var moved := s.(phase := Carrying(s.phase.next + 1)).(log := s.log + [w]);
      CompleteKeepsMarks(g, rd, moved, id, s.carried[id]);
    }
    assert forall n :: Settled(g, s, n) ==> Settled(g, s', n);
  }

  /** What collecting the awaited node does to the sets, and why. */
  ghost predicate CollectedFor(g: Graph, rd: Readings, s: State, s': State, id: NodeId) {
    && s'.remaining == s.remaining - {id} && s'.carried == s.carried && s'.tasks == s.tasks && s'.log == s.log
    && s.completed <= s'.completed <= s.completed + {id} && s.skipped <= s'.skipped
    && (id in s'.completed && id !in s.completed ==> id in rd && rd[id] != Output(Null))
    && s'.cancelled == s.cancelled
  }

  /** A node collected while all may still end well completed, was marked, or has no output. */
  ghost predicate CollectedWell(rd: Readings, s: State, s': State, id: NodeId) {
    Hopeful(s') ==> Hopeful(s) && (id in s'.completed || id in s'.skipped || (id in rd && rd[id] == Output(Null)))
  }

  /** An outcome completes its node, or fails the run, or leaves a marked or stopped node, or one
      without output. */
  lemma TakeHasReason(g: Graph, rd: Readings, s: State, id: NodeId, outcome: Outcome)
    requires MarksExplained(g, rd, s) && id in g.nodes && id in rd
    requires outcome.Returned? ==> rd[id] == Output(outcome.output)
    ensures var s' := Take(g, s, id, outcome);
      && MarksExplained(g, rd, s')
      && s' == s.(context := s'.context, completed := s'.completed, skipped := s'.skipped, failure := s'.failure)
      && s.completed <= s'.completed <= s.completed + {id} && s.skipped <= s'.skipped
      && (id in s'.completed && id !in s.completed ==> rd[id] != Output(Null))
      && (s'.failure.None? ==>
            s.failure.None? && (id in s'.completed || id in s.skipped || outcome.Stopped? || rd[id] == Output(Null)))
  {
    if outcome.Returned? && id !in s.skipped && !outcome.output.Null? {
      CompleteKeepsMarks(g, rd, s, id, outcome.output);
    }
  }

  lemma CollectHasReason(g: Graph, rd: Readings, s: State, s': State)
    requires rd.Keys == g.nodes.Keys && RoundOk(g, rd, s) && MarksExplained(g, rd, s) && Step(g, s, Collect, s')
    ensures CollectedFor(g, rd, s, s', s.phase.order[s.phase.collected])
    ensures MarksExplained(g, rd, s')
    ensures Settled(g, s, s.phase.order[s.phase.collected])
    ensures StopsExplained(s) ==> CollectedWell(rd, s, s', s.phase.order[s.phase.collected])
  {
    var id := s.phase.order[s.phase.collected];
    assert id in s.tasks && TaskOk(g, rd, id, s.tasks[id]) && Settled(g, s, id);
    var moved := s.(phase := s.phase.(collected := s.phase.collected + 1), remaining := s.remaining - {id});
    TakeHasReason(g, rd, moved, id, s.tasks[id].outcome);
  }

  lemma CollectKeepsReasons(g: Graph, rd: Readings, s: State, s': State, id: NodeId)
    requires Explained(g, rd, s) && CollectedFor(g, rd, s, s', id) && Settled(g, s, id)
    ensures CompletionsExplained(g, rd, s') && WritesExplained(g, s')
    ensures Accounted(g, rd, s) && CollectedWell(rd, s, s', id) ==> Accounted(g, rd, s')
  {
    assert forall n :: Settled(g, s, n) ==> Settled(g, s', n);
  }

  /** Any other step leaves the sets alone. */
  lemma QuietStepFrame(g: Graph, s: State, e: Event, s': State)
    requires Step(g, s, e, s') && !e.CarryNext? && !e.Collect?
    ensures s'.completed == s.completed && s'.skipped == s.skipped && s'.carried == s.carried
    ensures s.cancelled ==> s'.cancelled
    ensures Hopeful(s') ==> (Hopeful(s) && s'.remaining == s.remaining) || e.BeginRounds?
  {
  }

  lemma QuietStepSettles(g: Graph, s: State, s': State)
    requires s'.completed == s.completed && s'.skipped == s.skipped
    ensures forall n :: Settled(g, s, n) <==> Settled(g, s', n)
  {
  }

  lemma QuietStepKeepsReasons(g: Graph, rd: Readings, s: State, e: Event, s': State)
    requires Inv(g, rd, s) && Explained(g, rd, s) && Step(g, s, e, s') && !e.CarryNext? && !e.Collect?
    ensures Explained(g, rd, s')
  {
    QuietStepFrame(g, s, e, s');
    QuietStepSettles(g, s, s');
    assert e.Finish? ==> Settled(g, s, e.id);
  }

  lemma ReasonsKeep(g: Graph, rd: Readings, s: State, e: Event, s': State)
    requires Inv(g, rd, s) && Explained(g, rd, s) && Step(g, s, e, s')
    ensures Explained(g, rd, s')
  {
    match e
    case CarryNext => CarryKeepsReasons(g, rd, s, s');
    case Collect =>
      CollectHasReason(g, rd, s, s');
      CollectKeepsReasons(g, rd, s, s', s.phase.order[s.phase.collected]);
    case _ => QuietStepKeepsReasons(g, rd, s, e, s');
  }

  lemma AccountsKeep(g: Graph, rd: Readings, s: State, e: Event, s': State)
    requires Inv(g, rd, s) && Explained(g, rd, s) && Accounted(g, rd, s) && Step(g, s, e, s')
    requires e.Finish? && e.outcome.Stopped? ==> s.cancelled
    ensures Accounted(g, rd, s')
  {
    if e.Collect? {
      CollectHasReason(g, rd, s, s');
      CollectKeepsReasons(g, rd, s, s', s.phase.order[s.phase.collected]);
    } else if !e.CarryNext? {
      QuietStepFrame(g, s, e, s');
      QuietStepSettles(g, s, s');
    }
  }

  lemma StartExplained(g: Graph, rd: Readings, carried: map<NodeId, Json>)
    ensures Explained(g, rd, Init(carried)) && Accounted(g, rd, Init(carried)) && CarryOk(g, Init(carried))
  {
  }

  lemma NextReasons(r: RunInput, rd: Readings, run: Run, k: nat)
    requires WellFormed(r.graph) && IsReading(r.graph, rd) && Sound(r.graph, rd, r.carried)
    requires IsRun(r, run) && k < |run.events|
    requires Explained(r.graph, rd, run.states[k]) && CarryOk(r.graph, run.states[k])
    ensures Explained(r.graph, rd, run.states[k + 1]) && CarryOk(r.graph, run.states[k + 1])
  {
    RunKeeps(r, rd, run, k);
    assert Step(r.graph, run.states[k], run.events[k], run.states[k + 1]);
    ReasonsKeep(r.graph, rd, run.states[k], run.events[k], run.states[k + 1]);
    CarryOkKeeps(r.graph, run.states[k], run.events[k], run.states[k + 1]);
  }

  /** Marks, completions and writes have their reasons in every state of every run. */
  lemma {:induction false} ReasonsThroughout(r: RunInput, rd: Readings, run: Run, k: nat)
    requires WellFormed(r.graph) && IsReading(r.graph, rd) && Sound(r.graph, rd, r.carried)
    requires IsRun(r, run) && k < |run.states|
    ensures Explained(r.graph, rd, run.states[k]) && CarryOk(r.graph, run.states[k])
  {
    if k == 0 {
      StartExplained(r.graph, rd, r.carried);
    } else {
      ReasonsThroughout(r, rd, run, k - 1);
      NextReasons(r, rd, run, k - 1);
    }
  }

  lemma NextAccounts(r: RunInput, rd: Readings, run: Run, k: nat)
    requires WellFormed(r.graph) && IsReading(r.graph, rd) && Sound(r.graph, rd, r.carried)
    requires IsRun(r, run) && Disciplined(run) && k < |run.events| && Accounted(r.graph, rd, run.states[k])
    ensures Accounted(r.graph, rd, run.states[k + 1])
  {
    ReasonsThroughout(r, rd, run, k);
    RunKeeps(r, rd, run, k);
    assert Step(r.graph, run.states[k], run.events[k], run.states[k + 1]);
    AccountsKeep(r.graph, rd, run.states[k], run.events[k], run.states[k + 1]);
  }

  /** Departures have theirs when cancelled dispatches follow the signal. */
  lemma {:induction false} AccountsThroughout(r: RunInput, rd: Readings, run: Run, k: nat)
    requires WellFormed(r.graph) && IsReading(r.graph, rd) && Sound(r.graph, rd, r.carried)
    requires IsRun(r, run) && Disciplined(run) && k < |run.states|
    ensures Accounted(r.graph, rd, run.states[k])
  {
    if k == 0 {
      StartExplained(r.graph, rd, r.carried);
    } else {
      AccountsThroughout(r, rd, run, k - 1);
      NextAccounts(r, rd, run, k - 1);
    }
  }

  // ---------- how a completed run ends ----------

  /** The equations of node n: marked iff a completed upstream condition is false; completed iff
      carried, or unmarked with all upstreams settled and an output; left over iff neither carried
      nor settled. */
  ghost predicate EndsRight(g: Graph, rd: Readings, s: State, carried: map<NodeId, Json>, n: NodeId) {
    && (n in s.skipped <==> Marked(g, rd, s.completed, n))
    && (n in s.completed <==> n in carried || (n !in s.skipped && Settled(g, s, n) && n in rd && rd[n] != Output(Null)))
    && (n in s.remaining <==> n !in carried && !Settled(g, s, n))
  }

  /** The final variables of a completed run solve the equations, whatever its nodes compute. */
  lemma CompletedRunEndsRight(r: RunInput, rd: Readings, run: Run, n: NodeId)
    requires WellFormed(r.graph) && IsReading(r.graph, rd) && Sound(r.graph, rd, r.carried)
    requires EndsWith(r, run, RunCompleted) && Disciplined(run) && n in r.graph.nodes
    ensures EndsRight(r.graph, rd, Last(run), r.carried, n)
  {
    var g, s := r.graph, Last(run);
    RunKeeps(r, rd, run, |run.events|);
    ReasonsThroughout(r, rd, run, |run.events|);
    AccountsThroughout(r, rd, run, |run.events|);
    CarriedThroughout(r, run, |run.events|);
    if Marked(g, rd, s.completed, n) {
      var u :| u in Upstream(g, n) && u in s.completed && FalseReading(g, rd, u);
      assert n in Downstream(g, u);
    }
    if n in s.remaining {
      assert n !in Frontier(g, s);
    }
  }

  /** The equations have one solution: two states that solve them agree on every node. */
  lemma {:induction false} OneSolution(g: Graph, rd: Readings, s: State, s': State, carried: map<NodeId, Json>,
                                       n: NodeId)
    requires WellFormed(g) && n in g.nodes
    requires forall m :: m in g.nodes ==> EndsRight(g, rd, s, carried, m) && EndsRight(g, rd, s', carried, m)
    ensures n in s.completed <==> n in s'.completed
    ensures n in s.skipped <==> n in s'.skipped
    ensures n in s.remaining <==> n in s'.remaining
    decreases Position(g, n)
  {
    UpstreamIsEarlier(g, n);
    forall u | u in Upstream(g, n)
      ensures (u in s.completed <==> u in s'.completed) && (u in s.skipped <==> u in s'.skipped)
    {
      OneSolution(g, rd, s, s', carried, u);
    }
    assert EndsRight(g, rd, s, carried, n) && EndsRight(g, rd, s', carried, n);
    assert Marked(g, rd, s.completed, n) <==> Marked(g, rd, s'.completed, n);
    assert Settled(g, s, n) <==> Settled(g, s', n);
  }

  lemma SoundRunsAgree(r: RunInput, rd: Readings, run: Run, run': Run)
    requires WellFormed(r.graph) && IsReading(r.graph, rd) && Sound(r.graph, rd, r.carried)
    requires EndsWith(r, run, RunCompleted) && Disciplined(run)
    requires EndsWith(r, run', RunCompleted) && Disciplined(run')
    ensures Last(run).completed == Last(run').completed
    ensures Last(run).context == Last(run').context
    ensures Last(run).remaining == Last(run').remaining
  {
    var g, s, s' := r.graph, Last(run), Last(run');
    RunKeeps(r, rd, run, |run.events|);
    RunKeeps(r, rd, run', |run'.events|);
    forall n | n in g.nodes ensures EndsRight(g, rd, s, r.carried, n) && EndsRight(g, rd, s', r.carried, n) {
      CompletedRunEndsRight(r, rd, run, n);
      CompletedRunEndsRight(r, rd, run', n);
    }
    forall n | n in g.nodes
      ensures (n in s.completed <==> n in s'.completed) && (n in s.skipped <==> n in s'.skipped)
      ensures n in s.remaining <==> n in s'.remaining
    {
      OneSolution(g, rd, s, s', r.carried, n);
    }
    SameEnds(g, rd, s, s');
  }

  lemma SameEnds(g: Graph, rd: Readings, s: State, s': State)
    requires Inv(g, rd, s) && Inv(g, rd, s')
    requires forall n :: n in g.nodes ==>
      && (n in s.completed <==> n in s'.completed) && (n in s.skipped <==> n in s'.skipped)
      && (n in s.remaining <==> n in s'.remaining)
    ensures s.completed == s'.completed && s.skipped == s'.skipped && s.remaining == s'.remaining
    ensures s.context == s'.context
  {
    forall n | n in s.context ensures n in s'.context && s.context[n] == s'.context[n] {
      assert n in s.completed && rd[n] == Output(s.context[n]);
    }
  }

  // ---------- marks follow from the outputs ----------

  ghost predicate MarkedBy(g: Graph, context: map<NodeId, Json>, n: NodeId) {
    exists u :: u in context && u in g.nodes && FalseCondition(g.nodes[u], context[u]) && n in Downstream(g, u)
  }

  /** The marked nodes are the direct successors of the completed false conditions. */
  ghost predicate MarksHold(g: Graph, s: State) {
    forall n :: n in s.skipped <==> MarkedBy(g, s.context, n)
  }

  lemma CompleteHoldsMarks(g: Graph, s: State, id: NodeId, output: Json)
    requires MarksHold(g, s) && id in g.nodes && id !in s.context
    ensures MarksHold(g, Complete(g, s, id, output))
  {
    var s' := Complete(g, s, id, output);
    forall n ensures n in s'.skipped <==> MarkedBy(g, s'.context, n) {
      if MarkedBy(g, s.context, n) {
        var u :| u in s.context && u in g.nodes && FalseCondition(g.nodes[u], s.context[u]) && n in Downstream(g, u);
        assert s'.context[u] == s.context[u];
      }
      if FalseCondition(g.nodes[id], output) && n in Downstream(g, id) {
        assert s'.context[id] == output;
      }
    }
  }

  lemma TakeHoldsMarks(g: Graph, s: State, id: NodeId, outcome: Outcome)
    requires MarksHold(g, s) && id in g.nodes && id !in s.context
    ensures MarksHold(g, Take(g, s, id, outcome))
  {
    if outcome.Returned? {
      CompleteHoldsMarks(g, s, id, outcome.output);
    }
  }

  lemma CarryHoldsMarks(g: Graph, rd: Readings, s: State)
    requires PinOk(g, rd, s) && MarksHold(g, s) && Enabled(g, s, CarryNext)
    ensures MarksHold(g, CarryStep(g, s))
  {
    var id := g.plan[s.phase.next].id;
    if id in s.carried {
      var w := NodeWrite(id, NodeCompleted, None, s.carried[id], None);
      assert id !in s.completed;
      CompleteHoldsMarks(g, s.(phase := Carrying(s.phase.next + 1)).(log := s.log + [w]), id, s.carried[id]);
    }
  }

  lemma AwaitedIsOpen(g: Graph, rd: Readings, s: State)
    requires PinOk(g, rd, s) && s.phase.InRound? && s.phase.collected < |s.phase.order|
    ensures s.phase.order[s.phase.collected] !in s.context
  {
    assert s.phase.order[s.phase.collected] in s.remaining;
  }

  lemma CollectHoldsMarks(g: Graph, s: State)
    requires MarksHold(g, s) && Enabled(g, s, Collect) && s.phase.order[s.phase.collected] !in s.context
    ensures MarksHold(g, CollectStep(g, s))
  {
    var id := s.phase.order[s.phase.collected];
    var moved := s.(phase := s.phase.(collected := s.phase.collected + 1), remaining := s.remaining - {id});
    TakeHoldsMarks(g, moved, id, s.tasks[id].outcome);
  }

  lemma OtherStepsMarkNothing(g: Graph, s: State, e: Event, s': State)
    requires Step(g, s, e, s') && !e.CarryNext? && !e.Collect?
    ensures s'.skipped == s.skipped && s'.context == s.context
  {
  }

  lemma MarksKeep(g: Graph, rd: Readings, s: State, e: Event, s': State)
    requires PinOk(g, rd, s) && MarksHold(g, s) && Step(g, s, e, s')
    ensures MarksHold(g, s')
  {
    match e
    case CarryNext => CarryHoldsMarks(g, rd, s);
    case Collect =>
      AwaitedIsOpen(g, rd, s);
      CollectHoldsMarks(g, s);
    case _ => OtherStepsMarkNothing(g, s, e, s');
  }

  lemma {:induction false} MarksThroughout(r: RunInput, run: Run, k: nat)
    requires WellFormed(r.graph) && IsRun(r, run) && k < |run.states|
    ensures MarksHold(r.graph, run.states[k])
  {
    if k > 0 {
      var s, e, s' := run.states[k - 1], run.events[k - 1], run.states[k - 1 + 1];
      MarksThroughout(r, run, k - 1);
      PinThroughout(r, run, k - 1);
      assert Step(r.graph, s, e, s');
      MarksKeep(r.graph, PinnedReading(r.graph, r.carried), s, e, s');
    }
  }

  lemma SameMarks(g: Graph, s: State, s': State)
    requires MarksHold(g, s) && MarksHold(g, s') && s.context == s'.context
    ensures s.skipped == s'.skipped
  {
    assert forall n :: n in s.skipped <==> n in s'.skipped;
  }

  /** Confluence: whatever a node computes, None included, and whatever was carried, completed runs
      of one input end with the same variables, whatever their frontier orders and task
      interleavings were. */
  lemma Confluence(r: RunInput, run: Run, run': Run)
    requires WellFormed(r.graph)
    requires EndsWith(r, run, RunCompleted) && Disciplined(run)
    requires EndsWith(r, run', RunCompleted) && Disciplined(run')
    ensures Last(run).completed == Last(run').completed
    ensures Last(run).skipped == Last(run').skipped
    ensures Last(run).context == Last(run').context
    ensures Last(run).remaining == Last(run').remaining
  {
    PinIsSound(r.graph, r.carried);
    RunIsPinned(r, run);
    RunIsPinned(r, run');
    SoundRunsAgree(PinnedInput(r), PinnedReading(r.graph, r.carried), ClearedRun(run), ClearedRun(run'));
    MarksThroughout(r, run, |run.events|);
    MarksThroughout(r, run', |run'.events|);
    SameMarks(r.graph, Last(run), Last(run'));
  }
}
