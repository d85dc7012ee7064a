/** Runs whose carried outputs need not be those of the graph's reading, as when a draft is resumed
    after an edit. Each is step by step a run of the pinned graph, in which a carried node depends
    on nothing and computes what was carried; there the carried outputs are those of the reading. */
module Pinned {
  import opened Common
  import opened Dag
  import opened Engine
  import opened Readings
  import opened Safety

  // ---------- carried nodes ----------

  /** The carry loop has completed the carried nodes it has passed, and no others. */
  ghost predicate CarryOk(g: Graph, s: State) {
    && (s.phase.Carrying? ==>
          forall j :: 0 <= j < |g.plan| ==>
            (g.plan[j].id in s.completed <==> j < s.phase.next && g.plan[j].id in s.carried))
    && (!s.phase.Carrying? ==> forall id :: id in s.carried && id in g.nodes ==> id in s.completed)
  }

  lemma CarryOkKeeps(g: Graph, s: State, e: Event, s': State)
    requires WellFormed(g) && SetsOk(g, s) && CarryOk(g, s) && Step(g, s, e, s')
    ensures CarryOk(g, s')
  {
    match e
    case CarryNext => CarryNextKeeps(g, s, s');
    case BeginRounds =>
      forall id | id in s.carried && id in g.nodes ensures id in s.completed {
        assert g.plan[Position(g, id)].id == id;
      }
    case _ => StepGrows(g, s, e, s');
  }

  lemma CarryNextKeeps(g: Graph, s: State, s': State)
    requires NoDuplicates(IdsOf(g.plan)) && SetsOk(g, s) && CarryOk(g, s) && Step(g, s, CarryNext, s')
    ensures CarryOk(g, s')
  {
    var ids, k := IdsOf(g.plan), s.phase.next;
    forall j | 0 <= j < |g.plan|
      ensures g.plan[j].id in s'.completed <==> j < k + 1 && g.plan[j].id in s.carried
    {
      assert j != k ==> ids[j] != ids[k];
    }
  }

  /** Outside the carry loop, the carried outputs stay and `completed` only grows. */
  lemma StepGrows(g: Graph, s: State, e: Event, s': State)
    requires Step(g, s, e, s') && !e.CarryNext?
    ensures s.completed <= s'.completed && s'.carried == s.carried
    ensures s'.phase.Carrying? ==> s'.completed == s.completed && s'.phase == s.phase
    ensures s.phase.Carrying? && !s'.phase.Carrying? ==> e.BeginRounds?
  {
  }

  lemma CarriedStays(g: Graph, s: State, e: Event, s': State)
    requires Step(g, s, e, s')
    ensures s'.carried == s.carried
  {
  }

  lemma {:induction false} CarriedThroughout(r: RunInput, run: Run, k: nat)
    requires IsRun(r, run) && k < |run.states|
    ensures run.states[k].carried == r.carried
  {
    if k > 0 {
      CarriedThroughout(r, run, k - 1);
      CarriedStays(r.graph, run.states[k - 1], run.events[k - 1], run.states[k - 1 + 1]);
    }
  }

  // ---------- the pinned graph ----------

  /** The edges into nodes that are not carried. */
  function FreeEdges(edges: seq<Edge>, carried: map<NodeId, Json>): seq<Edge> {
    if edges == [] then []
    else (if edges[0].target in carried then [] else [edges[0]]) + FreeEdges(edges[1..], carried)
  }

  function PinnedFunction(f: NodeFunction, carried: map<NodeId, Json>): NodeFunction {
    (node: PlanNode, inputs: map<NodeId, Json>) => if node.id in carried then carried[node.id] else f(node, inputs)
  }

  function Pin(g: Graph, carried: map<NodeId, Json>): Graph {
    Graph(g.plan, g.nodes, FreeEdges(g.edges, carried), PinnedFunction(g.f, carried))
  }

  lemma {:induction false} FreeEdgesAre(edges: seq<Edge>, carried: map<NodeId, Json>, e: Edge)
    ensures e in FreeEdges(edges, carried) <==> e in edges && e.target !in carried
  {
    if edges != [] {
      FreeEdgesAre(edges[1..], carried, e);
      assert edges == [edges[0]] + edges[1..];
    }
  }

  lemma PinWellFormed(g: Graph, carried: map<NodeId, Json>)
    requires WellFormed(g)
    ensures WellFormed(Pin(g, carried))
  {
    forall e | e in FreeEdges(g.edges, carried) ensures e in g.edges {
      FreeEdgesAre(g.edges, carried, e);
    }
  }

  lemma PinNeighbours(g: Graph, carried: map<NodeId, Json>, id: NodeId)
    ensures Upstream(Pin(g, carried), id) == if id in carried then {} else Upstream(g, id)
    ensures Downstream(Pin(g, carried), id) == Downstream(g, id) - carried.Keys
  {
    forall u | u in g.nodes
      ensures Edge(u, id) in Pin(g, carried).edges <==> Edge(u, id) in g.edges && id !in carried
      ensures Edge(id, u) in Pin(g, carried).edges <==> Edge(id, u) in g.edges && u !in carried
    {
      FreeEdgesAre(g.edges, carried, Edge(u, id));
      FreeEdgesAre(g.edges, carried, Edge(id, u));
    }
  }

  /** What a graph means given the outputs carried into it. */
  ghost function PinnedReading(g: Graph, carried: map<NodeId, Json>): Readings
    requires WellFormed(g)
  {
    PinWellFormed(g, carried);
    ReadingOf(Pin(g, carried))
  }

  lemma NodeHasItsId(g: Graph, id: NodeId)
    requires WellFormed(g) && id in g.nodes
    ensures g.nodes[id].id == id
  {
    assert g.plan[Position(g, id)].id == id;
  }

  /** In the pinned graph the carried outputs are those of the reading. */
  lemma PinIsSound(g: Graph, carried: map<NodeId, Json>)
    requires WellFormed(g)
    ensures WellFormed(Pin(g, carried)) && IsReading(Pin(g, carried), PinnedReading(g, carried))
    ensures Sound(Pin(g, carried), PinnedReading(g, carried), carried)
  {
    var pin, rd := Pin(g, carried), PinnedReading(g, carried);
    PinWellFormed(g, carried);
    ReadingExists(pin);
    forall id | id in carried && id in rd ensures rd[id] == Output(carried[id]) {
      PinNeighbours(g, carried, id);
      NodeHasItsId(g, id);
      assert ReadsRight(pin, rd, id);
    }
  }

  /** Carried outputs that are those of the reading already change no meaning. */
  lemma SoundPinsNothing(g: Graph, carried: map<NodeId, Json>)
    requires WellFormed(g) && Sound(g, ReadingOf(g), carried)
    ensures PinnedReading(g, carried) == ReadingOf(g)
  {
    var pin, rd := Pin(g, carried), ReadingOf(g);
    ReadingExists(g);
    PinWellFormed(g, carried);
    forall id | id in g.nodes ensures ReadsRight(pin, rd, id) {
      assert ReadsRight(g, rd, id);
      PinNeighbours(g, carried, id);
      NodeHasItsId(g, id);
      assert id !in carried ==> InputsFrom(pin, rd, id) == InputsFrom(g, rd, id);
    }
    ReadingIsUnique(pin, rd);
  }

  // ---------- the same run in the pinned graph ----------

  /** The state without marks on carried nodes, which the scheduler never looks at. */
  function Cleared(s: State): State {
    s.(skipped := s.skipped - s.carried.Keys)
  }

  ghost predicate PinOk(g: Graph, rd: Readings, s: State) {
    Inv(Pin(g, s.carried), rd, Cleared(s)) && CarryOk(Pin(g, s.carried), Cleared(s))
  }

  /** Past the carry loop nothing carried is left, and marks on it settle nothing. */
  lemma CarriedAside(g: Graph, rd: Readings, s: State)
    requires PinOk(g, rd, s) && !s.phase.Carrying?
    ensures forall id :: id in s.remaining ==> id !in s.carried
    ensures forall id :: id !in s.carried ==> (Settled(Pin(g, s.carried), Cleared(s), id) <==> Settled(g, s, id))
    ensures Frontier(Pin(g, s.carried), Cleared(s)) == Frontier(g, s)
  {
    forall id | id !in s.carried ensures Settled(Pin(g, s.carried), Cleared(s), id) <==> Settled(g, s, id) {
      PinNeighbours(g, s.carried, id);
    }
  }

  /** A task that is not finished belongs to a node that is not carried. */
  lemma OpenTaskAside(g: Graph, rd: Readings, s: State, id: NodeId)
    requires PinOk(g, rd, s) && s.phase.InRound? && id in s.tasks && !s.tasks[id].Finished?
    ensures id !in s.carried && id in g.nodes
  {
    var i :| 0 <= i < |s.phase.order| && s.phase.order[i] == id;
    CarriedAside(g, rd, s);
  }

  lemma SameEnabled(g: Graph, rd: Readings, s: State, e: Event)
    requires WellFormed(g) && PinOk(g, rd, s)
    ensures Enabled(Pin(g, s.carried), Cleared(s), e) <==> Enabled(g, s, e)
  {
    if !s.phase.Carrying? {
      CarriedAside(g, rd, s);
    }
    if e.Finish? && s.phase.InRound? && e.id in s.tasks && s.tasks[e.id].Dispatched? && e.id in g.nodes {
      OpenTaskAside(g, rd, s, e.id);
      NodeHasItsId(g, e.id);
    }
  }

  /** Completing a node marks the same nodes, carried ones aside. */
  lemma SameComplete(g: Graph, s: State, id: NodeId, output: Json)
    requires id in g.nodes
    ensures Cleared(Complete(g, s, id, output)) == Complete(Pin(g, s.carried), Cleared(s), id, output)
  {
    PinNeighbours(g, s.carried, id);
  }

  lemma SameCarry(g: Graph, s: State)
    requires Enabled(g, s, CarryNext)
    ensures Cleared(CarryStep(g, s)) == CarryStep(Pin(g, s.carried), Cleared(s))
  {
    var id := g.plan[s.phase.next].id;
    if id in s.carried {
      var w := NodeWrite(id, NodeCompleted, None, s.carried[id], None);
      SameComplete(g, s.(phase := Carrying(s.phase.next + 1)).(log := s.log + [w]), id, s.carried[id]);
    }
  }

  lemma SameStart(g: Graph, rd: Readings, s: State, id: NodeId)
    requires PinOk(g, rd, s) && Enabled(g, s, Start(id))
    ensures Cleared(StartStep(g, s, id)) == StartStep(Pin(g, s.carried), Cleared(s), id)
  {
    OpenTaskAside(g, rd, s, id);
    PinNeighbours(g, s.carried, id);
    assert InputsOf(Pin(g, s.carried), s.context, id) == InputsOf(g, s.context, id);
  }

  lemma SameTake(g: Graph, moved: State, id: NodeId, outcome: Outcome)
    requires id in g.nodes && id !in moved.carried
    ensures Cleared(Take(g, moved, id, outcome)) == Take(Pin(g, moved.carried), Cleared(moved), id, outcome)
  {
    if outcome.Returned? {
      SameComplete(g, moved, id, outcome.output);
    }
  }

  lemma SameCollect(g: Graph, s: State)
    requires Enabled(g, s, Collect) && s.phase.order[s.phase.collected] !in s.carried
    ensures Enabled(Pin(g, s.carried), Cleared(s), Collect)
    ensures Cleared(CollectStep(g, s)) == CollectStep(Pin(g, s.carried), Cleared(s))
  {
    var id := s.phase.order[s.phase.collected];
    var moved := s.(phase := s.phase.(collected := s.phase.collected + 1), remaining := s.remaining - {id});
    SameTake(g, moved, id, s.tasks[id].outcome);
  }

  lemma AwaitedAside(g: Graph, rd: Readings, s: State, id: NodeId)
    requires PinOk(g, rd, s) && s.phase.InRound? && s.phase.collected < |s.phase.order|
    requires id == s.phase.order[s.phase.collected]
    ensures id !in s.carried
  {
    CarriedAside(g, rd, s);
    assert id in s.remaining;
  }

  /** Every step of a run is a step of the pinned graph. */
  lemma SameStep(g: Graph, rd: Readings, s: State, e: Event, s': State)
    requires WellFormed(g) && PinOk(g, rd, s) && Step(g, s, e, s')
    ensures Step(Pin(g, s.carried), Cleared(s), e, Cleared(s'))
  {
    SameEnabled(g, rd, s, e);
    match e
    case CarryNext => SameCarry(g, s);
    case Start(id) => SameStart(g, rd, s, id);
    case Collect =>
      AwaitedAside(g, rd, s, s.phase.order[s.phase.collected]);
      SameCollect(g, s);
    case _ =>
  }

  lemma PinStepKeeps(g: Graph, rd: Readings, s: State, e: Event, s': State)
    requires WellFormed(g) && PinOk(g, rd, s) && Step(g, s, e, s')
    ensures Step(Pin(g, s.carried), Cleared(s), e, Cleared(s')) && s'.carried == s.carried && PinOk(g, rd, s')
  {
    SameStep(g, rd, s, e, s');
    CarriedStays(g, s, e, s');
    PinWellFormed(g, s.carried);
    StepKeeps(Pin(g, s.carried), rd, Cleared(s), e, Cleared(s'));
    CarryOkKeeps(Pin(g, s.carried), Cleared(s), e, Cleared(s'));
  }

  lemma PinInit(g: Graph, carried: map<NodeId, Json>)
    requires WellFormed(g)
    ensures PinOk(g, PinnedReading(g, carried), Init(carried)) && Cleared(Init(carried)) == Init(carried)
  {
    PinIsSound(g, carried);
    InitKeeps(Pin(g, carried), PinnedReading(g, carried), carried);
    assert Cleared(Init(carried)) == Init(carried);
  }

  lemma {:induction false} PinThroughout(r: RunInput, run: Run, k: nat)
    requires WellFormed(r.graph) && IsRun(r, run) && k < |run.states|
    ensures run.states[k].carried == r.carried
    ensures PinOk(r.graph, PinnedReading(r.graph, r.carried), run.states[k])
  {
    if k == 0 {
      PinInit(r.graph, r.carried);
    } else {
      PinThroughout(r, run, k - 1);
      var s, e, s' := run.states[k - 1], run.events[k - 1], run.states[k - 1 + 1];
      assert Step(r.graph, s, e, s');
      PinStepKeeps(r.graph, PinnedReading(r.graph, r.carried), s, e, s');
    }
  }

  function PinnedInput(r: RunInput): RunInput {
    RunInput(Pin(r.graph, r.carried), r.carried)
  }

  function ClearedRun(run: Run): Run {
    Run(run.events, seq(|run.states|, k requires 0 <= k < |run.states| => Cleared(run.states[k])))
  }

  /** So every run, whatever it carries, is a run of the pinned graph with the same events, writes
      and phases. */
  lemma {:induction false} RunIsPinned(r: RunInput, run: Run)
    requires WellFormed(r.graph) && IsRun(r, run)
    ensures IsRun(PinnedInput(r), ClearedRun(run))
    ensures Last(ClearedRun(run)) == Cleared(Last(run)) && Last(run).carried == r.carried
    ensures Disciplined(run) ==> Disciplined(ClearedRun(run))
  {
    PinInit(r.graph, r.carried);
    forall i | 0 <= i < |run.events|
      ensures Step(Pin(r.graph, r.carried), Cleared(run.states[i]), run.events[i], Cleared(run.states[i + 1]))
    {
      PinThroughout(r, run, i);
      assert Step(r.graph, run.states[i], run.events[i], run.states[i + 1]);
      SameStep(r.graph, PinnedReading(r.graph, r.carried), run.states[i], run.events[i], run.states[i + 1]);
    }
    PinThroughout(r, run, |run.events|);
  }
}
