/** Every run is short and never stuck: a measure that each step lowers, and an enabled step
    in every state that has not ended. */
module Termination {
  import opened Common
  import opened Dag
  import opened Engine
  import opened Readings
  import opened Safety
  import opened Pinned

  /** How far a task of the round has come. */
  function Progress(task: Task): nat {
    match task
    case Waiting => 0
    case Dispatched(_) => 1
    case Finished(_) => 2
  }

  ghost function ProgressOf(tasks: map<NodeId, Task>, order: seq<NodeId>): nat {
    if order == [] then 0
    else (if order[0] in tasks then Progress(tasks[order[0]]) else 0) + ProgressOf(tasks, order[1..])
  }

  /** Every node still in `remaining` is worth 8, and every other step a little; each round
      gives back 2 or 3 but takes at least one node. */
  ghost function Measure(g: Graph, s: State): int {
    (if s.cancelled then 0 else 1) +
    match s.phase
    case Carrying(next) => 9 * |g.plan| - next + 4
    case Deciding => 8 * |s.remaining| + 3
    case InRound(order, collected) =>
      if collected > |order| then 0
      else 8 * |s.remaining| + (if collected == 0 then 2 else 4) - ProgressOf(s.tasks, order[collected..])
    case Draining(left, _) => |left| + 1
    case Ended(_) => 0
  }

  lemma {:induction false} AdvanceCounts(tasks: map<NodeId, Task>, order: seq<NodeId>, id: NodeId, task: Task)
    requires NoDuplicates(order) && id in tasks
    ensures id in order ==> ProgressOf(tasks[id := task], order)
                            == ProgressOf(tasks, order) + Progress(task) - Progress(tasks[id])
    ensures id !in order ==> ProgressOf(tasks[id := task], order) == ProgressOf(tasks, order)
  {
    if order != [] {
      assert order == [order[0]] + order[1..];
      assert NoDuplicates(order[1..]);
      assert order[0] !in order[1..];
      AdvanceCounts(tasks, order[1..], id, task);
    }
  }

  lemma {:induction false} WaitingCountsNothing(tasks: map<NodeId, Task>, order: seq<NodeId>)
    requires forall id :: id in tasks ==> tasks[id].Waiting?
    ensures ProgressOf(tasks, order) == 0
  {
    if order != [] {
      WaitingCountsNothing(tasks, order[1..]);
    }
  }

  lemma {:induction false} ProgressBound(tasks: map<NodeId, Task>, order: seq<NodeId>)
    ensures ProgressOf(tasks, order) <= 2 * |order|
  {
    if order != [] {
      ProgressBound(tasks, order[1..]);
    }
  }

  /** What is still to collect is still in `remaining`. */
  lemma UncollectedRemain(g: Graph, rd: Readings, s: State)
    requires rd.Keys == g.nodes.Keys && RoundOk(g, rd, s) && s.phase.InRound?
    ensures |s.phase.order| - s.phase.collected <= |s.remaining|
    ensures ProgressOf(s.tasks, s.phase.order[s.phase.collected..]) <= 2 * |s.remaining|
  {
    var rest := s.phase.order[s.phase.collected..];
    NoDuplicatesSize(rest);
    assert Elements(rest) <= s.remaining;
    SubsetSize(Elements(rest), s.remaining);
    ProgressBound(s.tasks, rest);
  }

  lemma MeasureIsNatural(g: Graph, rd: Readings, s: State)
    requires Inv(g, rd, s)
    ensures Measure(g, s) >= 0
  {
    if s.phase.InRound? {
      UncollectedRemain(g, rd, s);
    }
  }

  lemma AdvanceLowers(tasks: map<NodeId, Task>, order: seq<NodeId>, k: nat, i: nat, task: Task)
    requires NoDuplicates(order) && k <= i < |order| && order[i] in tasks
    requires Progress(tasks[order[i]]) < Progress(task)
    ensures ProgressOf(tasks[order[i] := task], order[k..]) > ProgressOf(tasks, order[k..])
  {
    assert order[k..][i - k] == order[i];
    AdvanceCounts(tasks, order[k..], order[i], task);
  }

  lemma TaskStepLowers(g: Graph, rd: Readings, s: State, e: Event, s': State)
    requires rd.Keys == g.nodes.Keys && RoundOk(g, rd, s) && Step(g, s, e, s') && (e.Start? || e.Finish?)
    ensures Measure(g, s') < Measure(g, s)
  {
    var order, k, id := s.phase.order, s.phase.collected, e.id;
    assert id in Elements(order);
    var i :| 0 <= i < |order| && order[i] == id;
    assert k <= i;
    TaskAdvances(g, s, e, s');
    AdvanceLowers(s.tasks, order, k, i, s'.tasks[id]);
  }

  /** Starting or finishing a task changes that task only, and takes it further. */
  lemma TaskAdvances(g: Graph, s: State, e: Event, s': State)
    requires Step(g, s, e, s') && (e.Start? || e.Finish?)
    ensures e.id in s'.tasks && s'.tasks == s.tasks[e.id := s'.tasks[e.id]]
    ensures Progress(s.tasks[e.id]) < Progress(s'.tasks[e.id])
    ensures s'.phase == s.phase && s'.remaining == s.remaining && s'.cancelled == s.cancelled
  {
  }

  lemma CollectLowers(g: Graph, rd: Readings, s: State, s': State)
    requires rd.Keys == g.nodes.Keys && RoundOk(g, rd, s) && Collected(s, s')
    ensures Measure(g, s') < Measure(g, s)
  {
    var order, k := s.phase.order, s.phase.collected;
    assert order[k..][0] == order[k] && order[k..][1..] == order[k + 1..];
    assert order[k] in s.tasks && order[k] in s.remaining;
    assert |s'.remaining| == |s.remaining| - 1;
  }

  lemma RoundEdgeLowers(g: Graph, rd: Readings, s: State, e: Event, s': State)
    requires rd.Keys == g.nodes.Keys && RoundOk(g, rd, s) && Step(g, s, e, s') && (e.OpenRound? || e.CloseRound?)
    ensures Measure(g, s') < Measure(g, s)
  {
    if e.OpenRound? {
      assert e.order[0..] == e.order;
      WaitingCountsNothing(s'.tasks, e.order);
    } else {
      assert s.phase.order[s.phase.collected..] == [];
      assert s'.remaining == s.remaining && s'.cancelled == s.cancelled;
    }
  }

  lemma LoopEdgeLowers(g: Graph, s: State, e: Event, s': State)
    requires |g.plan| == |g.nodes.Keys| && SetsOk(g, s) && Step(g, s, e, s') && (e.BeginRounds? || e.LeaveLoop?)
    ensures Measure(g, s') < Measure(g, s)
  {
    if e.BeginRounds? {
      SubsetSize(s'.remaining, g.nodes.Keys);
    } else {
      NoDuplicatesSize(e.left);
      SubsetSize(Elements(e.left), s.remaining);
    }
  }

  /** Every step lowers the measure, except a cancel signal that repeats an earlier one. */
  lemma {:induction false} StepLowers(g: Graph, rd: Readings, s: State, e: Event, s': State)
    requires |g.plan| == |g.nodes.Keys| && rd.Keys == g.nodes.Keys && SetsOk(g, s) && RoundOk(g, rd, s)
    requires Step(g, s, e, s')
    ensures e == Cancel && s.cancelled ==> s' == s
    ensures !(e == Cancel && s.cancelled) ==> Measure(g, s') < Measure(g, s)
  {
    match e
    case Start(_) => TaskStepLowers(g, rd, s, e, s');
    case Finish(_, _) => TaskStepLowers(g, rd, s, e, s');
    case Collect =>
      CollectFrame(g, s, s');
      CollectLowers(g, rd, s, s');
    case OpenRound(_) => RoundEdgeLowers(g, rd, s, e, s');
    case CloseRound => RoundEdgeLowers(g, rd, s, e, s');
    case BeginRounds => LoopEdgeLowers(g, s, e, s');
    case LeaveLoop(_) => LoopEdgeLowers(g, s, e, s');
    case _ =>
  }

  lemma PlanSize(g: Graph)
    requires WellFormed(g)
    ensures |g.plan| == |g.nodes.Keys|
  {
    NoDuplicatesSize(IdsOf(g.plan));
    assert Elements(IdsOf(g.plan)) == g.nodes.Keys;
  }

  // ---------- over whole runs ----------

  /** Events that do something: all but a cancel signal that repeats an earlier one. */
  ghost function Effective(run: Run, k: nat): nat
    requires k <= |run.events| && k <= |run.states|
  {
    if k == 0 then 0
    else Effective(run, k - 1) + if run.events[k - 1] == Cancel && run.states[k - 1].cancelled then 0 else 1
  }

  /** What one event of a run does to the measure. */
  lemma EffectiveStep(r: RunInput, rd: Readings, run: Run, k: nat)
    requires |r.graph.plan| == |r.graph.nodes.Keys| && IsReading(r.graph, rd) && Sound(r.graph, rd, r.carried)
    requires IsRun(r, run) && k < |run.events|
    ensures Measure(r.graph, run.states[k + 1]) + (if run.events[k] == Cancel && run.states[k].cancelled then 0 else 1)
            <= Measure(r.graph, run.states[k])
  {
    RunKeeps(r, rd, run, k);
    StepLowers(r.graph, rd, run.states[k], run.events[k], run.states[k + 1]);
  }

  lemma {:induction false} EffectiveBound(r: RunInput, rd: Readings, run: Run, k: nat)
    requires |r.graph.plan| == |r.graph.nodes.Keys| && IsReading(r.graph, rd) && Sound(r.graph, rd, r.carried)
    requires IsRun(r, run) && k < |run.states|
    ensures Effective(run, k) + Measure(r.graph, run.states[k]) <= 9 * |r.graph.plan| + 5
  {
    if k == 0 {
      assert Measure(r.graph, Init(r.carried)) == 9 * |r.graph.plan| + 5;
    } else {
      EffectiveBound(r, rd, run, k - 1);
      EffectiveStep(r, rd, run, k - 1);
    }
  }

  lemma SoundRunsAreShort(r: RunInput, rd: Readings, run: Run)
    requires WellFormed(r.graph) && IsReading(r.graph, rd) && Sound(r.graph, rd, r.carried) && IsRun(r, run)
    ensures Effective(run, |run.events|) <= 9 * |r.graph.plan| + 5
  {
    PlanSize(r.graph);
    EffectiveBound(r, rd, run, |run.events|);
    RunKeeps(r, rd, run, |run.events|);
    MeasureIsNatural(r.graph, rd, Last(run));
  }

  lemma {:induction false} SameEffective(run: Run, k: nat)
    requires k <= |run.events| && k <= |run.states|
    ensures Effective(ClearedRun(run), k) == Effective(run, k)
  {
    if k > 0 {
      SameEffective(run, k - 1);
    }
  }

  /** No run over n nodes has more than 9n + 5 effective events, whatever it carries. */
  lemma RunsAreShort(r: RunInput, run: Run)
    requires WellFormed(r.graph) && IsRun(r, run)
    ensures Effective(run, |run.events|) <= 9 * |r.graph.plan| + 5
  {
    PinIsSound(r.graph, r.carried);
    RunIsPinned(r, run);
    SoundRunsAreShort(PinnedInput(r), PinnedReading(r.graph, r.carried), ClearedRun(run));
    SameEffective(run, |run.events|);
  }

  lemma {:induction false} SomeEnumeration(elements: set<NodeId>) returns (order: seq<NodeId>)
    ensures Enumerates(order, elements)
  {
    if elements == {} {
      order := [];
    } else {
      var x :| x in elements;
      var rest := SomeEnumeration(elements - {x});
      order := rest + [x];
    }
  }

  /** A state that has not ended always has a step other than a cancel. */
  lemma StateHasStep(g: Graph, rd: Readings, s: State) returns (e: Event)
    requires WellFormed(g) && Inv(g, rd, s) && !s.phase.Ended?
    ensures Enabled(g, s, e) && e != Cancel
  {
    match s.phase
    case Carrying(next) =>
      e := if next < |g.plan| then CarryNext else BeginRounds;
    case Deciding =>
      if LoopOver(g, s) {
        var left := SomeEnumeration(if Verdict(s) == RunCompleted then {} else s.remaining);
        e := LeaveLoop(left);
      } else {
        var order := SomeEnumeration(Frontier(g, s));
        e := OpenRound(order);
      }
    case InRound(order, k) =>
      if k == |order| {
        e := CloseRound;
      } else {
        var id := order[k];
        assert id in s.tasks && TaskOk(g, rd, id, s.tasks[id]);
        e := match s.tasks[id]
          case Waiting => Start(id)
          case Dispatched(inputs) => Finish(id, Returned(g.f(g.nodes[id], inputs)))
          case Finished(_) => Collect;
      }
    case Draining(left, _) =>
      e := if left == [] then Conclude else DrainOne;
  }

  /** A run that has not ended can always take one, whatever it carries. */
  lemma NeverStuck(r: RunInput, run: Run) returns (e: Event)
    requires WellFormed(r.graph) && IsRun(r, run) && !Last(run).phase.Ended?
    ensures Enabled(r.graph, Last(run), e) && e != Cancel
  {
    var rd := PinnedReading(r.graph, r.carried);
    PinIsSound(r.graph, r.carried);
    PinThroughout(r, run, |run.events|);
    e := StateHasStep(Pin(r.graph, r.carried), rd, Cleared(Last(run)));
    SameEnabled(r.graph, rd, Last(run), e);
  }
}
