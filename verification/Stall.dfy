/** What the scheduler would do with a node function that returns None, which no built-in activity
    does: it takes such a node out of `remaining` without settling it, what depends on it stalls,
    and the run is still reported "completed". */
module Stall {
  import opened Common
  import opened Dag
  import opened Engine
  import opened Outcomes

  /** Neither failure nor cancel, and no cancelled dispatch. */
  ghost predicate Uneventful(e: Event) {
    !e.Cancel? && (e.Finish? ==> e.outcome.Returned?)
  }

  ghost predicate UneventfulRun(r: RunInput, run: Run) {
    IsRun(r, run) && forall e :: e in run.events ==> Uneventful(e)
  }

  lemma Advance(r: RunInput, run: Run, e: Event) returns (run': Run)
    requires UneventfulRun(r, run) && Uneventful(e) && Enabled(r.graph, Last(run), e)
    ensures UneventfulRun(r, run')
    ensures run'.states != [] && Last(run') == Apply(r.graph, Last(run), e)
  {
    var s := Apply(r.graph, Last(run), e);
    ExtendRun(r, run, e, s);
    run' := Run(run.events + [e], run.states + [s]);
  }

  /** Two nodes, the second depending on the first. */
  ghost function Two(a: PlanNode, b: PlanNode, f: NodeFunction): Graph {
    Graph([a, b], map[a.id := a, b.id := b], [Edge(a.id, b.id)], f)
  }

  lemma TwoIsWellFormed(a: PlanNode, b: PlanNode, f: NodeFunction)
    requires a.id != b.id
    ensures WellFormed(Two(a, b, f))
    ensures Upstream(Two(a, b, f), a.id) == {} && Upstream(Two(a, b, f), b.id) == {a.id}
  {
    var g := Two(a, b, f);
    var ids := IdsOf(g.plan);
    assert ids[0] == a.id && ids[1] == b.id;
    assert Edge(a.id, b.id) in g.edges;
  }

  /** The carrying phase of a fresh run. */
  lemma ReachRounds(a: PlanNode, b: PlanNode, f: NodeFunction) returns (run: Run)
    requires a.id != b.id
    ensures UneventfulRun(RunInput(Two(a, b, f), map[]), run)
    ensures Last(run).phase == Deciding && Last(run).remaining == {a.id, b.id} && !Last(run).cancelled
    ensures Last(run).failure == None && Last(run).completed == {} && Last(run).skipped == {}
    ensures Last(run).context == map[]
  {
    var r := RunInput(Two(a, b, f), map[]);
    run := Run([], [Init(map[])]);
    run := Advance(r, run, CarryNext);
    run := Advance(r, run, CarryNext);
    run := Advance(r, run, BeginRounds);
  }

  /** At the loop guard, with nothing settled yet. */
  ghost predicate NothingSettled(s: State, remaining: set<NodeId>) {
    && s.remaining == remaining && !s.cancelled && s.failure == None
    && s.completed == {} && s.skipped == {} && s.context == map[]
  }

  /** The first node runs alone and returns None. */
  lemma FirstTask(a: PlanNode, b: PlanNode, f: NodeFunction, before: Run) returns (run: Run)
    requires a.id != b.id && f(a, map[]).Null?
    requires UneventfulRun(RunInput(Two(a, b, f), map[]), before)
    requires Last(before).phase == Deciding && NothingSettled(Last(before), {a.id, b.id})
    ensures UneventfulRun(RunInput(Two(a, b, f), map[]), run)
    ensures Last(run).phase == InRound([a.id], 0) && NothingSettled(Last(run), {a.id, b.id})
    ensures Last(run).tasks == map[a.id := Finished(Returned(Null))]
  {
    var g := Two(a, b, f);
    var r := RunInput(g, map[]);
    TwoIsWellFormed(a, b, f);
    run := before;
    assert a.id in Frontier(g, Last(run)) && Frontier(g, Last(run)) == {a.id};
    run := Advance(r, run, OpenRound([a.id]));
    run := Advance(r, run, Start(a.id));
    assert InputsOf(g, map[], a.id) == map[];
    run := Advance(r, run, Finish(a.id, Returned(Null)));
  }

  /** It is collected without being completed. */
  lemma FirstRound(a: PlanNode, b: PlanNode, f: NodeFunction, before: Run) returns (run: Run)
    requires a.id != b.id && f(a, map[]).Null?
    requires UneventfulRun(RunInput(Two(a, b, f), map[]), before)
    requires Last(before).phase == Deciding && NothingSettled(Last(before), {a.id, b.id})
    ensures UneventfulRun(RunInput(Two(a, b, f), map[]), run)
    ensures Last(run).phase == Deciding && NothingSettled(Last(run), {b.id})
  {
    var r := RunInput(Two(a, b, f), map[]);
    run := FirstTask(a, b, f, before);
    run := Advance(r, run, Collect);
    run := Advance(r, run, CloseRound);
  }

  /** When a first node returns None, a run without failure or cancel ends "completed" with its
      successor neither completed nor skipped. */
  lemma NoneOutputStalls(a: PlanNode, b: PlanNode, f: NodeFunction) returns (run: Run)
    requires a.id != b.id && f(a, map[]).Null?
    ensures WellFormed(Two(a, b, f))
    ensures EndsWith(RunInput(Two(a, b, f), map[]), run, RunCompleted)
    ensures NoCancel(run) && NoFailure(run) && Disciplined(run)
    ensures b.id in Last(run).remaining && b.id !in Last(run).completed && b.id !in Last(run).skipped
    ensures Lost(Two(a, b, f), Last(run)) == {a.id}
  {
    var g := Two(a, b, f);
    var r := RunInput(g, map[]);
    TwoIsWellFormed(a, b, f);
    run := ReachRounds(a, b, f);
    run := FirstRound(a, b, f, run);
    assert Frontier(g, Last(run)) == {};
    run := Advance(r, run, LeaveLoop([]));
    run := Advance(r, run, Conclude);
    forall i | 0 <= i < |run.events| ensures Uneventful(run.events[i]) {
      assert run.events[i] in run.events;
    }
  }
}
