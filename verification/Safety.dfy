/** What every step of the scheduler keeps: whatever the interleaving, failures and cancels,
    the variables of `run` never disagree with the recursive reading of the graph. */
module Safety {
  import opened Common
  import opened Dag
  import opened Engine
  import opened Readings

  // ---------- the invariant ----------

  /** The sets range over the plan's ids; a completed node has left `remaining`. */
  ghost predicate SetsOk(g: Graph, s: State) {
    && s.completed <= g.nodes.Keys && s.skipped <= g.nodes.Keys && s.remaining <= g.nodes.Keys
    && s.context.Keys == s.completed
    && s.completed !! s.remaining
    && (s.phase.Carrying? ==> s.phase.next <= |g.plan| && s.remaining == {})
  }

  /** Completed nodes have the output of the reading, skipped nodes are skipped in it. */
  ghost predicate AgreesWithReading(g: Graph, rd: Readings, s: State)
    requires rd.Keys == g.nodes.Keys && SetsOk(g, s)
  {
    && (forall n :: n in s.completed ==> rd[n] == Output(s.context[n]))
    && (forall n :: n in s.skipped ==> rd[n] == Skipped)
  }

  /** Every false condition has already marked its direct successors. */
  ghost predicate ConditionsApplied(g: Graph, s: State)
    requires SetsOk(g, s)
  {
    forall n :: n in s.completed && FalseCondition(g.nodes[n], s.context[n]) ==> Downstream(g, n) <= s.skipped
  }

  ghost predicate TaskOk(g: Graph, rd: Readings, id: NodeId, task: Task)
    requires rd.Keys == g.nodes.Keys && id in g.nodes
  {
    match task
    case Waiting => true
    case Dispatched(inputs) =>
      inputs == InputsFrom(g, rd, id) && rd[id] == Output(g.f(g.nodes[id], inputs))
    case Finished(outcome) => outcome.Returned? ==> rd[id] == Output(outcome.output)
  }

  /** The round in flight: distinct settled nodes, collected in order. */
  ghost predicate RoundOk(g: Graph, rd: Readings, s: State)
    requires rd.Keys == g.nodes.Keys
  {
    if s.phase.InRound? then
      && s.phase.collected <= |s.phase.order| && s.phase.order != []
      && NoDuplicates(s.phase.order)
      && s.tasks.Keys == Elements(s.phase.order)
      && (forall id :: id in s.tasks ==> id in g.nodes && Settled(g, s, id) && TaskOk(g, rd, id, s.tasks[id]))
      && (forall i :: 0 <= i < |s.phase.order| ==>
            s.phase.order[i] in s.tasks
            && (s.phase.order[i] in s.remaining <==> s.phase.collected <= i)
            && (i < s.phase.collected ==> s.tasks[s.phase.order[i]].Finished?))
    else s.tasks == map[]
  }

  /** Every "completed" ever written carries the output of the reading; nothing else has one. */
  ghost predicate LogOk(g: Graph, rd: Readings, log: seq<Write>)
    requires rd.Keys == g.nodes.Keys
  {
    forall w :: w in log && w.NodeWrite? ==>
      w.id in g.nodes && (if w.status == NodeCompleted then rd[w.id] == Output(w.output) else w.output.Null?)
  }

  ghost predicate DrainOk(g: Graph, s: State) {
    && (s.phase.Draining? ==>
          && NoDuplicates(s.phase.left)
          && (forall id :: id in s.phase.left ==> id in s.remaining)
          && (s.phase.verdict == RunCompleted ==> Frontier(g, s) == {}))
    && (s.phase.Ended? && s.phase.verdict == RunCompleted ==> Frontier(g, s) == {})
  }

  /** The invariant, relative to the graph's reading `rd`. */
  ghost predicate Inv(g: Graph, rd: Readings, s: State) {
    && IsReading(g, rd) && Sound(g, rd, s.carried)
    && SetsOk(g, s)
    && AgreesWithReading(g, rd, s)
    && ConditionsApplied(g, s)
    && RoundOk(g, rd, s)
    && LogOk(g, rd, s.log)
    && DrainOk(g, s)
  }

  // ---------- each step keeps it ----------

  lemma InitKeeps(g: Graph, rd: Readings, carried: map<NodeId, Json>)
    requires IsReading(g, rd) && Sound(g, rd, carried)
    ensures Inv(g, rd, Init(carried))
  {
  }

  /** The successors of a false condition read as skipped. */
  lemma FalseConditionPrunes(g: Graph, rd: Readings, id: NodeId, output: Json, d: NodeId)
    requires IsReading(g, rd) && id in g.nodes && rd[id] == Output(output) && FalseCondition(g.nodes[id], output)
    requires d in Downstream(g, id)
    ensures rd[d] == Skipped
  {
    assert Edge(id, d) in g.edges && id in Upstream(g, d);
    assert FalseReading(g, rd, id);
    assert ReadsRight(g, rd, d);
  }

  lemma CompleteSets(g: Graph, s: State, id: NodeId, output: Json)
    requires SetsOk(g, s) && ConditionsApplied(g, s) && id in g.nodes && id !in s.remaining
    ensures SetsOk(g, Complete(g, s, id, output)) && ConditionsApplied(g, Complete(g, s, id, output))
  {
  }

  /** Completing a node with the output of the reading keeps the agreement. */
  lemma CompleteAgrees(g: Graph, rd: Readings, s: State, id: NodeId, output: Json)
    requires IsReading(g, rd) && SetsOk(g, s)
    requires AgreesWithReading(g, rd, s) && ConditionsApplied(g, s)
    requires id in g.nodes && id !in s.remaining && rd[id] == Output(output)
    ensures SetsOk(g, Complete(g, s, id, output))
    ensures AgreesWithReading(g, rd, Complete(g, s, id, output))
    ensures ConditionsApplied(g, Complete(g, s, id, output))
  {
    CompleteSets(g, s, id, output);
    CompletedReadRight(g, rd, s, id, output);
    MarkedReadSkipped(g, rd, s, id, output);
  }

  lemma CompletedReadRight(g: Graph, rd: Readings, s: State, id: NodeId, output: Json)
    requires rd.Keys == g.nodes.Keys && SetsOk(g, s) && AgreesWithReading(g, rd, s)
    requires id in g.nodes && rd[id] == Output(output)
    ensures var s' := Complete(g, s, id, output);
      forall n :: n in s'.completed ==> n in s'.context && n in rd && rd[n] == Output(s'.context[n])
  {
  }

  lemma MarkedReadSkipped(g: Graph, rd: Readings, s: State, id: NodeId, output: Json)
    requires IsReading(g, rd) && SetsOk(g, s) && AgreesWithReading(g, rd, s)
    requires id in g.nodes && rd[id] == Output(output)
    ensures forall n :: n in Complete(g, s, id, output).skipped ==> n in rd && rd[n] == Skipped
  {
    if FalseCondition(g.nodes[id], output) {
      forall d | d in Downstream(g, id) ensures rd[d] == Skipped {
        FalseConditionPrunes(g, rd, id, output, d);
      }
    }
  }

  /** When a node's upstreams are settled, its pruning and its inputs are already decided. */
  lemma SettledDecides(g: Graph, rd: Readings, s: State, id: NodeId)
    requires IsReading(g, rd) && SetsOk(g, s)
    requires AgreesWithReading(g, rd, s) && ConditionsApplied(g, s)
    requires id in g.nodes && Settled(g, s, id)
    ensures id in s.skipped <==> rd[id] == Skipped
    ensures InputsOf(g, s.context, id) == InputsFrom(g, rd, id)
    ensures id !in s.skipped ==> rd[id] == Output(g.f(g.nodes[id], InputsOf(g, s.context, id)))
  {
    assert ReadsRight(g, rd, id);
    forall u | u in Upstream(g, id)
      ensures rd[u].Output? <==> u in s.context
      ensures FalseReading(g, rd, u) ==> id in s.skipped
    {
      assert u in s.completed || u in s.skipped;
      if FalseReading(g, rd, u) {
        assert u in s.completed && id in Downstream(g, u);
      }
    }
  }

  /** Replacing an unfinished task by a right one keeps the round right. */
  lemma TaskKeepsRound(g: Graph, rd: Readings, s: State, id: NodeId, task: Task, s': State)
    requires rd.Keys == g.nodes.Keys && RoundOk(g, rd, s) && s.phase.InRound?
    requires id in s.tasks && !s.tasks[id].Finished? && id in g.nodes && TaskOk(g, rd, id, task)
    requires s'.phase == s.phase && s'.tasks == s.tasks[id := task] && s'.remaining == s.remaining
    requires s'.completed == s.completed && s'.skipped == s.skipped
    ensures RoundOk(g, rd, s')
  {
    forall n | n in s'.tasks ensures n in g.nodes && Settled(g, s', n) && TaskOk(g, rd, n, s'.tasks[n]) {
      assert n in s.tasks && Settled(g, s, n);
    }
  }

  /** The frame of a collection: it touches the awaited node only. */
  ghost predicate Collected(s: State, s': State) {
    && s.phase.InRound? && s.phase.collected < |s.phase.order|
    && var now := s.phase.order[s.phase.collected];
    && now in s.tasks && s.tasks[now].Finished?
    && s'.phase == InRound(s.phase.order, s.phase.collected + 1)
    && s'.tasks == s.tasks && s'.log == s.log && s'.carried == s.carried && s'.cancelled == s.cancelled
    && s'.remaining == s.remaining - {now}
    && (s'.completed == s.completed || (s'.completed == s.completed + {now} && s.tasks[now].outcome.Returned?))
    && s.skipped <= s'.skipped
  }

  lemma CollectFrame(g: Graph, s: State, s': State)
    requires Step(g, s, Collect, s')
    ensures Collected(s, s')
  {
  }

  /** Collecting the awaited task moves it, and no other node of the round, out of `remaining`. */
  lemma CollectKeepsRound(g: Graph, rd: Readings, s: State, s': State)
    requires rd.Keys == g.nodes.Keys && RoundOk(g, rd, s) && Collected(s, s')
    ensures RoundOk(g, rd, s')
  {
    var order, k := s.phase.order, s.phase.collected;
    forall n | n in s'.tasks ensures n in g.nodes && Settled(g, s', n) && TaskOk(g, rd, n, s'.tasks[n]) {
      assert n in s.tasks && Settled(g, s, n);
    }
    forall i | 0 <= i < |order|
      ensures order[i] in s'.tasks && (order[i] in s'.remaining <==> k + 1 <= i)
      ensures i < k + 1 ==> s'.tasks[order[i]].Finished?
    {
      assert order[i] in s.tasks && (order[i] in s.remaining <==> k <= i);
      assert i != k ==> order[i] != order[k];
    }
  }

  lemma LogKeeps(g: Graph, rd: Readings, log: seq<Write>, w: Write)
    requires rd.Keys == g.nodes.Keys && LogOk(g, rd, log)
    requires w.NodeWrite? ==>
      w.id in g.nodes && (if w.status == NodeCompleted then rd[w.id] == Output(w.output) else w.output.Null?)
    ensures LogOk(g, rd, log + [w])
  {
  }

  lemma CarryKeeps(g: Graph, rd: Readings, s: State)
    requires Inv(g, rd, s) && Enabled(g, s, CarryNext)
    ensures Inv(g, rd, Apply(g, s, CarryNext))
  {
    var id := g.plan[s.phase.next].id;
    if id in s.carried {
      var w := NodeWrite(id, NodeCompleted, None, s.carried[id], None);
      var moved := s.(phase := Carrying(s.phase.next + 1)).(log := s.log + [w]);
      CompleteAgrees(g, rd, moved, id, s.carried[id]);
    }
  }

  lemma StartKeeps(g: Graph, rd: Readings, s: State, id: NodeId)
    requires Inv(g, rd, s) && Enabled(g, s, Start(id))
    ensures Inv(g, rd, Apply(g, s, Start(id)))
  {
    var s' := StartStep(g, s, id);
    assert Settled(g, s, id) && id in g.nodes;
    SettledDecides(g, rd, s, id);
    TaskKeepsRound(g, rd, s, id, s'.tasks[id], s');
    LogKeeps(g, rd, s.log, s'.log[|s.log|]);
  }

  lemma FinishKeeps(g: Graph, rd: Readings, s: State, id: NodeId, outcome: Outcome)
    requires Inv(g, rd, s) && Enabled(g, s, Finish(id, outcome))
    ensures Inv(g, rd, Apply(g, s, Finish(id, outcome)))
  {
    var s' := FinishStep(s, id, outcome);
    assert TaskOk(g, rd, id, s.tasks[id]);
    TaskKeepsRound(g, rd, s, id, Finished(outcome), s');
    LogKeeps(g, rd, s.log, FinishWrite(id, outcome));
  }

  /** The sets after a collection: only a returned output, never None, completes its node. */
  lemma CollectKeepsSets(g: Graph, rd: Readings, s: State, moved: State, output: Json, s': State)
    requires IsReading(g, rd) && SetsOk(g, s) && AgreesWithReading(g, rd, s) && ConditionsApplied(g, s)
    requires s.phase.InRound? && s.phase.collected < |s.phase.order|
    requires var id := s.phase.order[s.phase.collected];
             && id in g.nodes && rd[id] == Output(output)
             && moved == s.(phase := moved.phase, remaining := s.remaining - {id}) && moved.phase.InRound?
             && s' == if id in s.skipped || output.Null? then moved else Complete(g, moved, id, output)
    ensures SetsOk(g, s') && AgreesWithReading(g, rd, s') && ConditionsApplied(g, s')
    ensures s'.phase == moved.phase && s'.tasks == s.tasks && s'.remaining == moved.remaining && s'.log == s.log
    ensures s.completed <= s'.completed && s.skipped <= s'.skipped && s'.carried == s.carried
  {
    CompleteAgrees(g, rd, moved, s.phase.order[s.phase.collected], output);
  }

  lemma CollectKeeps(g: Graph, rd: Readings, s: State)
    requires Inv(g, rd, s) && Enabled(g, s, Collect)
    ensures Inv(g, rd, Apply(g, s, Collect))
  {
    var id, outcome := s.phase.order[s.phase.collected], s.tasks[s.phase.order[s.phase.collected]].outcome;
    var s' := CollectStep(g, s);
    var moved := s.(phase := s.phase.(collected := s.phase.collected + 1), remaining := s.remaining - {id});
    assert TaskOk(g, rd, id, s.tasks[id]);
    if outcome.Returned? {
      CollectKeepsSets(g, rd, s, moved, outcome.output, s');
    } else {
      assert s' == moved.(failure := s'.failure);
    }
    CollectFrame(g, s, s');
    CollectKeepsRound(g, rd, s, s');
  }

  lemma OpenRoundKeeps(g: Graph, rd: Readings, s: State, order: seq<NodeId>)
    requires Inv(g, rd, s) && Enabled(g, s, OpenRound(order))
    ensures Inv(g, rd, Apply(g, s, OpenRound(order)))
  {
    var s' := Apply(g, s, OpenRound(order));
    forall id | id in s'.tasks ensures id in g.nodes && Settled(g, s', id) {
      assert id in Frontier(g, s);
    }
    var id :| id in Frontier(g, s);
    assert id in order;
    forall i | 0 <= i < |order| ensures order[i] in s'.tasks && order[i] in s'.remaining {
      assert order[i] in order;
    }
  }

  lemma LeaveLoopKeeps(g: Graph, rd: Readings, s: State, left: seq<NodeId>)
    requires Inv(g, rd, s) && Enabled(g, s, LeaveLoop(left))
    ensures Inv(g, rd, Apply(g, s, LeaveLoop(left)))
  {
    if s.remaining == {} {
      assert Frontier(g, s) == {};
    }
    var s' := Apply(g, s, LeaveLoop(left));
    assert Frontier(g, s') == Frontier(g, s) by {
      assert forall id :: Settled(g, s', id) <==> Settled(g, s, id);
    }
  }

  /** The frontier depends on the three sets only. */
  lemma SameFrontier(g: Graph, s: State, s': State)
    requires s'.remaining == s.remaining && s'.completed == s.completed && s'.skipped == s.skipped
    ensures Frontier(g, s') == Frontier(g, s)
    ensures forall id :: Settled(g, s', id) <==> Settled(g, s, id)
  {
    assert forall id :: Settled(g, s', id) <==> Settled(g, s, id);
  }

  lemma DrainKeeps(g: Graph, rd: Readings, s: State)
    requires Inv(g, rd, s) && Enabled(g, s, DrainOne)
    ensures Inv(g, rd, Apply(g, s, DrainOne))
  {
    var s' := Apply(g, s, DrainOne);
    SameFrontier(g, s, s');
    assert s.phase.left[0] in s.phase.left;
    LogKeeps(g, rd, s.log, PlainWrite(s.phase.left[0], NodeSkipped));
    assert forall id :: id in s'.phase.left ==> id in s.phase.left;
  }

  lemma EndgameKeeps(g: Graph, rd: Readings, s: State, e: Event)
    requires Inv(g, rd, s) && Enabled(g, s, e) && (e.Conclude? || e.Cancel? || e.CloseRound? || e.BeginRounds?)
    ensures Inv(g, rd, Apply(g, s, e))
  {
    var s' := Apply(g, s, e);
    if s'.remaining == s.remaining {
      SameFrontier(g, s, s');
    }
    if e.Conclude? {
      LogKeeps(g, rd, s.log, s'.log[|s.log|]);
    }
  }

  /** Every step of every run keeps the invariant. */
  lemma StepKeeps(g: Graph, rd: Readings, s: State, e: Event, s': State)
    requires Inv(g, rd, s) && Step(g, s, e, s')
    ensures Inv(g, rd, s')
  {
    match e
    case CarryNext => CarryKeeps(g, rd, s);
    case Start(id) => StartKeeps(g, rd, s, id);
    case Finish(id, outcome) => FinishKeeps(g, rd, s, id, outcome);
    case Collect => CollectKeeps(g, rd, s);
    case OpenRound(order) => OpenRoundKeeps(g, rd, s, order);
    case LeaveLoop(left) => LeaveLoopKeeps(g, rd, s, left);
    case DrainOne => DrainKeeps(g, rd, s);
    case _ => EndgameKeeps(g, rd, s, e);
  }

  /** So it holds in every state of every run whose carried outputs are sound. */
  lemma {:induction false} RunKeeps(r: RunInput, rd: Readings, run: Run, k: nat)
    requires IsReading(r.graph, rd) && Sound(r.graph, rd, r.carried)
    requires IsRun(r, run) && k < |run.states|
    ensures Inv(r.graph, rd, run.states[k])
  {
    if k == 0 {
      InitKeeps(r.graph, rd, r.carried);
    } else {
      RunKeeps(r, rd, run, k - 1);
      assert Step(r.graph, run.states[k - 1], run.events[k - 1], run.states[k - 1 + 1]);
      StepKeeps(r.graph, rd, run.states[k - 1], run.events[k - 1], run.states[k]);
    }
  }
}
