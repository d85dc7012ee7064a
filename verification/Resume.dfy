/** Resuming a run (api/app/services/workflow_run_service.py): what is carried over, when a
    resume is refused, and why a chain of resumes ends where one uninterrupted run would. */
module Resume {
  import opened Common
  import opened Dag
  import opened Engine
  import opened Readings
  import opened Safety
  import opened Pinned
  import opened Settlements
  import opened Outcomes
  import opened Traces
  import opened Persistence
  import opened Artifacts

  datatype RunRecord = RunRecord(id: string, version: Option<string>, root: Option<string>, rows: Rows)

  datatype ResumeError = VersionMissing | NamesCollide(collision: Collision) | NothingToResume

  /** What the new run starts with. */
  datatype NewRun = NewRun(version: Option<string>, definition: Definition, carried: map<NodeId, Json>, root: string)

  function LiveIds(def: Definition): set<NodeId> {
    set n | n in def.nodes && n.id.Id? :: n.id
  }

  /** Outputs of completed rows of nodes that are still there. */
  function CarriedOutputs(nodes: map<NodeId, NodeRow>, live: set<NodeId>): map<NodeId, Json> {
    map id | id in nodes && nodes[id].status == NodeCompleted && id in live :: nodes[id].output
  }

  /** The first run of the chain a run belongs to: itself when it resumes nothing. */
  function RootOf(id: string, root: Option<string>): string {
    if root.Some? then root.value else id
  }

  /** A node with a string id whose row reads "completed". */
  ghost predicate Done(source: RunRecord, n: RawNode) {
    n.id.Id? && n.id in source.rows.nodes && source.rows.nodes[n.id].status == NodeCompleted
  }

  /** The new run uses the definition of the source's version, or the live one of a draft; it carries
      the rows' outputs of exactly the nodes of that definition that are done. A resume is refused
      when the version is gone, when names collide, or when nothing is left to run, and only on those
      grounds. */
  method ResumeRun(source: RunRecord, live: Definition, versions: map<string, Definition>)
    returns (r: Result<NewRun, ResumeError>)
    ensures r == Failure(VersionMissing) <==> source.version.Some? && source.version.value !in versions
    ensures r.Success? ==>
      && r.value.version == source.version
      && r.value.definition == (match source.version case Some(v) => versions[v] case None => live)
      && r.value.root == (match source.root case Some(root) => root case None => source.id)
      && (forall id :: id in r.value.carried <==>
            exists n :: n in r.value.definition.nodes && n.id == id && Done(source, n))
      && (forall id :: id in r.value.carried ==> r.value.carried[id] == source.rows.nodes[id].output)
    ensures r.Success? ==>
      && (forall c :: !IsCollision(r.value.definition, c))
      && ((exists n :: n in r.value.definition.nodes && n.id.Id?) ==>
            exists n :: n in r.value.definition.nodes && n.id.Id? && !Done(source, n))
    ensures r.Failure? && r.error.NamesCollide? ==>
      IsCollision(match source.version case Some(v) => versions[v] case None => live, r.error.collision)
    ensures r == Failure(NothingToResume) ==>
      var def := match source.version case Some(v) => versions[v] case None => live;
      && (forall c :: !IsCollision(def, c))
      && (exists n :: n in def.nodes && n.id.Id?)
      && (forall n :: n in def.nodes && n.id.Id? ==> Done(source, n))
  {
    var definition := live;
    if source.version.Some? {
      if source.version.value !in versions {
        return Failure(VersionMissing);
      }
      definition := versions[source.version.value];
    }
    var collision := ValidateArtifactNames(definition);
    if collision.Some? {
      return Failure(NamesCollide(collision.value));
    }
    var ids := LiveIds(definition);
    var carried := CarriedOutputs(source.rows.nodes, ids);
    LiveAndDone(source, definition);
    if ids != {} && carried.Keys >= ids {
      return Failure(NothingToResume);
    }
    return Success(NewRun(source.version, definition, carried, RootOf(source.id, source.root)));
  }

  /** The sets the code computes with, node by node. */
  lemma LiveAndDone(source: RunRecord, def: Definition)
    ensures LiveIds(def) != {} <==> exists n :: n in def.nodes && n.id.Id?
    ensures var carried := CarriedOutputs(source.rows.nodes, LiveIds(def));
      && (forall id :: id in carried <==> exists n :: n in def.nodes && n.id == id && Done(source, n))
      && (LiveIds(def) <= carried.Keys <==> forall n :: n in def.nodes && n.id.Id? ==> Done(source, n))
  {
    var carried := CarriedOutputs(source.rows.nodes, LiveIds(def));
    forall n | n in def.nodes && n.id.Id? ensures n.id in LiveIds(def) && (n.id in carried <==> Done(source, n)) {
    }
  }

  // ---------- carried outputs are sound ----------

  /** Whatever prefix of a run the rows come from, and whatever it carried itself, the outputs
      carried over are those of the pinned reading; so they are those of the reading if what it
      carried was. */
  lemma CarriedIsSound(r: RunInput, run: Run, k: nat, live: set<NodeId>)
    requires WellFormed(r.graph) && IsRun(r, run) && k < |run.states|
    ensures var carried := CarriedOutputs(Replay(run.states[k].log).nodes, live);
      && Sound(r.graph, PinnedReading(r.graph, r.carried), carried)
      && (Sound(r.graph, ReadingOf(r.graph), r.carried) ==> Sound(r.graph, ReadingOf(r.graph), carried))
  {
    var g, rd, log := r.graph, PinnedReading(r.graph, r.carried), run.states[k].log;
    PinIsSound(g, r.carried);
    PinThroughout(r, run, k);
    var carried := CarriedOutputs(Replay(log).nodes, live);
    forall id | id in carried && id in rd ensures rd[id] == Output(carried[id]) {
      RowsAgree(Pin(g, r.carried), rd, log, id);
    }
    if Sound(g, ReadingOf(g), r.carried) {
      SoundPinsNothing(g, r.carried);
    }
  }

  /** Marking the run cancelled leaves what is carried over unchanged. */
  lemma SweepCarriesTheSame(rows: Rows, error: string, now: nat, live: set<NodeId>)
    ensures CarriedOutputs(Sweep(rows, error, now).nodes, live) == CarriedOutputs(rows.nodes, live)
  {
    var swept := Sweep(rows, error, now);
    assert forall id :: id in swept.nodes ==> id in rows.nodes;
    assert CarriedOutputs(swept.nodes, live).Keys == CarriedOutputs(rows.nodes, live).Keys;
  }

  // ---------- a resume has work left ----------

  lemma {:induction false} CarryingCompletesCarried(r: RunInput, run: Run, k: nat)
    requires IsRun(r, run) && k < |run.states|
    ensures run.states[k].carried == r.carried
    ensures run.states[k].phase.Carrying? ==> run.states[k].completed <= r.carried.Keys
  {
    if k > 0 {
      CarryingCompletesCarried(r, run, k - 1);
      assert Step(r.graph, run.states[k - 1], run.events[k - 1], run.states[k - 1 + 1]);
    }
  }

  /** An accepted resume of a nonempty definition starts its rounds with nodes left to run, and
      with a frontier among them. */
  lemma ResumeHasWork(def: Definition, r: RunInput, run: Run, k: nat)
    requires WellFormed(r.graph) && Enumerates(IdsOf(r.graph.plan), NodeIds(def))
    requires def.nodes != [] && forall n :: n in def.nodes ==> n.id.Id?
    requires !(LiveIds(def) <= r.carried.Keys)
    requires IsRun(r, run) && k < |run.events| && run.events[k] == BeginRounds
    ensures run.states[k + 1].remaining != {}
    ensures Frontier(r.graph, run.states[k + 1]) != {}
  {
    var g, s, s' := r.graph, run.states[k], run.states[k + 1];
    assert Step(g, s, run.events[k], s');
    CarryingCompletesCarried(r, run, k);
    var id :| id in LiveIds(def) && id !in r.carried;
    assert id in NodeIds(def) && id in IdsOf(g.plan) && id in g.nodes;
    assert id in s'.remaining;
    assert Lost(g, s') == {};
    NoStall(g, s');
  }

  // ---------- chains of resumes ----------

  /** One run of a chain, stopped in some state, possibly marked cancelled by the API. */
  datatype Attempt = Attempt(
    id: string, root: Option<string>, carried: map<NodeId, Json>, run: Run, stop: nat, sweep: Option<string>)

  ghost function RowsAfter(a: Attempt, now: nat): Rows
    requires a.stop < |a.run.states|
  {
    var rows := Replay(a.run.states[a.stop].log);
    if a.sweep.Some? then Sweep(rows, a.sweep.value, now) else rows
  }

  ghost predicate IsAttempt(g: Graph, a: Attempt) {
    IsRun(RunInput(g, a.carried), a.run) && a.stop < |a.run.states|
  }

  ghost predicate Resumes(g: Graph, live: set<NodeId>, a: Attempt, a': Attempt, now: nat) {
    && IsAttempt(g, a)
    && a'.root == Some(RootOf(a.id, a.root))
    && a'.carried == CarriedOutputs(RowsAfter(a, now).nodes, live)
  }

  /** A fresh run, and runs that each resume the one before on the same definition. */
  ghost predicate IsChain(g: Graph, live: set<NodeId>, chain: seq<Attempt>, clock: seq<nat>) {
    && |clock| == |chain| && chain != []
    && chain[0].root.None? && chain[0].carried == map[]
    && (forall k :: 0 <= k < |chain| ==> IsAttempt(g, chain[k]))
    && (forall k :: 0 <= k < |chain| - 1 ==> Resumes(g, live, chain[k], chain[k + 1], clock[k]))
  }

  /** The session of a step: a name-based id of the node under the root run, or else the run. */
  function StepSession(uuid5: (string, string) -> string, run: string, node: string, root: Option<string>): string {
    uuid5(if root.Some? && root.value != "" then root.value else run, node)
  }

  /** An empty root counts as none. */
  lemma EmptyRootIsNone(uuid5: (string, string) -> string, run: string, node: string)
    ensures StepSession(uuid5, run, node, Some("")) == StepSession(uuid5, run, node, None) == uuid5(run, node)
  {
  }

  /** Every run of a chain carries sound outputs and keeps the root of the first. */
  lemma {:induction false} ChainIsSound(g: Graph, live: set<NodeId>, chain: seq<Attempt>, clock: seq<nat>, k: nat)
    requires WellFormed(g) && IsChain(g, live, chain, clock) && k < |chain|
    ensures Sound(g, ReadingOf(g), chain[k].carried)
    ensures RootOf(chain[k].id, chain[k].root) == chain[0].id
  {
    if k > 0 {
      ChainIsSound(g, live, chain, clock, k - 1);
      var a := chain[k - 1];
      assert Resumes(g, live, chain[k - 1], chain[k - 1 + 1], clock[k - 1]);
      CarriedFrom(g, live, chain, clock, k);
      CarriedIsSound(RunInput(g, a.carried), a.run, a.stop, live);
    }
  }

  /** So all of them use the same session for a step. */
  lemma ChainSharesSessions(g: Graph, live: set<NodeId>, chain: seq<Attempt>, clock: seq<nat>, k: nat,
                            uuid5: (string, string) -> string, node: string)
    requires WellFormed(g) && IsChain(g, live, chain, clock) && k < |chain|
    requires chain[0].id != ""
    ensures StepSession(uuid5, chain[k].id, node, Some(RootOf(chain[k].id, chain[k].root))) == uuid5(chain[0].id, node)
    ensures StepSession(uuid5, chain[0].id, node, None) == uuid5(chain[0].id, node)
  {
    ChainIsSound(g, live, chain, clock, k);
  }

  // ---------- a resumed run ends as an uninterrupted one, exactly ----------

  /** A carried output that is None, of a node that comes no later than n. */
  ghost predicate NoneBefore(g: Graph, carried: map<NodeId, Json>, n: NodeId)
    requires WellFormed(g) && n in g.nodes
  {
    exists m :: m in carried && m in g.nodes && carried[m] == Null && Position(g, m) <= Position(g, n)
  }

  /** What is carried beyond what an uninterrupted run would complete goes back to a carried None. */
  ghost predicate Traceable(g: Graph, carried: map<NodeId, Json>, whole: State)
    requires WellFormed(g)
  {
    forall n :: n in carried && n in g.nodes && n !in whole.completed ==> NoneBefore(g, carried, n)
  }

  /** A node that settled with an output here but not in the uninterrupted run has a completed
      upstream, or an upstream condition before it, that the uninterrupted run lacks. */
  lemma EarlierDifference(g: Graph, rd: Readings, s: State, whole: State, n: NodeId) returns (v: NodeId)
    requires WellFormed(g) && Inv(g, rd, s) && Inv(g, rd, whole) && MarksExplained(g, rd, s)
    requires forall m :: m in g.nodes ==> EndsRight(g, rd, whole, map[], m)
    requires n in g.nodes && Settled(g, s, n) && rd[n].Output? && rd[n] != Output(Null) && n !in whole.completed
    ensures v in g.nodes && v in s.completed && v !in whole.completed && Position(g, v) < Position(g, n)
  {
    UpstreamIsEarlier(g, n);
    assert EndsRight(g, rd, whole, map[], n);
    assert n !in whole.skipped;
    var u :| u in Upstream(g, n) && u !in whole.completed && u !in whole.skipped;
    if u in s.completed {
      v := u;
    } else {
      assert Marked(g, rd, s.completed, u);
      v :| v in Upstream(g, u) && v in s.completed && FalseReading(g, rd, v);
      UpstreamIsEarlier(g, u);
      assert EndsRight(g, rd, whole, map[], u);
    }
  }

  /** In any state of a resumed run, a completed node beyond the uninterrupted run goes back to a
      carried None. */
  lemma {:induction false} CompletedTraceable(g: Graph, rd: Readings, s: State, whole: State, n: NodeId)
    requires WellFormed(g) && Inv(g, rd, s) && Inv(g, rd, whole) && Explained(g, rd, s)
    requires forall m :: m in g.nodes ==> EndsRight(g, rd, whole, map[], m)
    requires Traceable(g, s.carried, whole)
    requires n in g.nodes && n in s.completed && n !in whole.completed
    ensures NoneBefore(g, s.carried, n)
    decreases Position(g, n)
  {
    if n !in s.carried {
      var v := EarlierDifference(g, rd, s, whole, n);
      CompletedTraceable(g, rd, s, whole, v);
    }
  }

  /** A row that reads "completed" is one the run wrote so. */
  lemma CompletedRowWritten(log: seq<Write>, n: NodeId)
    requires n in Replay(log).nodes && Replay(log).nodes[n].status == NodeCompleted
    ensures exists w :: w in log && w.NodeWrite? && w.id == n && w.status == NodeCompleted
  {
    RowShowsTrace(log, n);
    StatusWritten(log, n, NodeCompleted);
  }

  lemma {:induction false} StatusWritten(log: seq<Write>, n: NodeId, status: NodeStatus)
    requires status in Statuses(log, n)
    ensures exists w :: w in log && w.NodeWrite? && w.id == n && w.status == status
  {
    var front, last := log[..|log| - 1], log[|log| - 1];
    assert log == front + [last];
    if status in Statuses(front, n) {
      StatusWritten(front, n, status);
      var w :| w in front && w.NodeWrite? && w.id == n && w.status == status;
      assert w in log;
    } else {
      assert last in log;
    }
  }

  /** A carried node that the carry loop has completed has a completed row with its output. */
  lemma CarriedRowStands(g: Graph, rd: Readings, s: State, m: NodeId)
    requires rd.Keys == g.nodes.Keys && Inv(g, rd, s) && TraceInv(g, rd, s)
    requires m in g.nodes && m in s.carried && m in s.completed
    ensures m in Replay(s.log).nodes && Replay(s.log).nodes[m].status == NodeCompleted
    ensures Replay(s.log).nodes[m].output == s.carried[m]
  {
    RowShowsTrace(s.log, m);
    assert TraceFits(rd, s, m, Statuses(s.log, m));
    RowsAgree(g, rd, s.log, m);
  }

  /** Why a row beyond the uninterrupted run reads "completed". */
  lemma RowCause(g: Graph, rd: Readings, s: State, whole: State, n: NodeId)
    requires WellFormed(g) && Inv(g, rd, s) && Inv(g, rd, whole) && Explained(g, rd, s)
    requires forall m :: m in g.nodes ==> EndsRight(g, rd, whole, map[], m)
    requires Traceable(g, s.carried, whole)
    requires n in g.nodes && n in Replay(s.log).nodes && Replay(s.log).nodes[n].status == NodeCompleted
    requires n !in whole.completed
    ensures rd[n] == Output(Replay(s.log).nodes[n].output)
    ensures rd[n] == Output(Null) || NoneBefore(g, s.carried, n)
  {
    RowsAgree(g, rd, s.log, n);
    CompletedRowWritten(s.log, n);
    if n !in s.carried && rd[n] != Output(Null) {
      var v := EarlierDifference(g, rd, s, whole, n);
      CompletedTraceable(g, rd, s, whole, v);
    }
  }

  /** Where a run stops, the node a traceable row goes back to has its row too. */
  lemma RowTraceable(g: Graph, rd: Readings, s: State, whole: State, live: set<NodeId>, n: NodeId)
    requires WellFormed(g) && Inv(g, rd, s) && Inv(g, rd, whole) && Explained(g, rd, s)
    requires CarryOk(g, s) && TraceInv(g, rd, s)
    requires forall m :: m in g.nodes ==> EndsRight(g, rd, whole, map[], m)
    requires Traceable(g, s.carried, whole) && g.nodes.Keys <= live
    requires n in g.nodes && n in CarriedOutputs(Replay(s.log).nodes, live) && n !in whole.completed
    ensures NoneBefore(g, CarriedOutputs(Replay(s.log).nodes, live), n)
  {
    RowCause(g, rd, s, whole, n);
    if rd[n] == Output(Null) {
      assert CarriedOutputs(Replay(s.log).nodes, live)[n] == Null;
    } else {
      NoneRowStands(g, rd, s, live, n);
    }
  }

  lemma NoneRowStands(g: Graph, rd: Readings, s: State, live: set<NodeId>, n: NodeId)
    requires WellFormed(g) && Inv(g, rd, s) && CarryOk(g, s) && TraceInv(g, rd, s) && g.nodes.Keys <= live
    requires n in g.nodes && n in Replay(s.log).nodes && Replay(s.log).nodes[n].status == NodeCompleted
    requires NoneBefore(g, s.carried, n)
    ensures NoneBefore(g, CarriedOutputs(Replay(s.log).nodes, live), n)
  {
    var m :| m in s.carried && m in g.nodes && s.carried[m] == Null && Position(g, m) <= Position(g, n);
    EarlierCarried(g, rd, s, n, m);
    CarriedRowStands(g, rd, s, m);
    var carried := CarriedOutputs(Replay(s.log).nodes, live);
    assert m in carried && carried[m] == Null;
  }

  /** When a node has its completed row, the carried nodes before it have theirs. */
  lemma EarlierCarried(g: Graph, rd: Readings, s: State, n: NodeId, m: NodeId)
    requires WellFormed(g) && rd.Keys == g.nodes.Keys && CarryOk(g, s) && TraceInv(g, rd, s)
    requires n in g.nodes && n in Replay(s.log).nodes && Replay(s.log).nodes[n].status == NodeCompleted
    requires m in g.nodes && m in s.carried && Position(g, m) <= Position(g, n)
    ensures m in s.completed
  {
    RowShowsTrace(s.log, n);
    assert TraceFits(rd, s, n, Statuses(s.log, n));
    assert g.plan[Position(g, n)].id == n && g.plan[Position(g, m)].id == m;
  }

  /** How an uninterrupted completed run ends. */
  ghost predicate WholeRun(g: Graph, whole: State)
    requires WellFormed(g)
  {
    Inv(g, ReadingOf(g), whole) && forall m :: m in g.nodes ==> EndsRight(g, ReadingOf(g), whole, map[], m)
  }

  /** Wherever a run stops, what would be carried from it is traceable if what it carried was. */
  lemma StopTraceable(r: RunInput, run: Run, stop: nat, whole: State, live: set<NodeId>)
    requires WellFormed(r.graph) && Sound(r.graph, ReadingOf(r.graph), r.carried) && r.graph.nodes.Keys <= live
    requires IsRun(r, run) && stop < |run.states|
    requires WholeRun(r.graph, whole)
    requires Traceable(r.graph, r.carried, whole)
    ensures Traceable(r.graph, CarriedOutputs(Replay(run.states[stop].log).nodes, live), whole)
  {
    var g, rd, s := r.graph, ReadingOf(r.graph), run.states[stop];
    ReadingExists(g);
    RunKeeps(r, rd, run, stop);
    ReasonsThroughout(r, rd, run, stop);
    TracesThroughout(r, rd, run, stop);
    CarriedThroughout(r, run, stop);
    var carried := CarriedOutputs(Replay(s.log).nodes, live);
    forall n | n in carried && n in g.nodes && n !in whole.completed ensures NoneBefore(g, carried, n) {
      RowTraceable(g, rd, s, whole, live, n);
    }
  }

  lemma NothingIsTraceable(g: Graph, carried: map<NodeId, Json>, whole: State)
    requires WellFormed(g) && carried == map[]
    ensures Traceable(g, carried, whole)
  {
  }

  lemma AttemptTraceable(g: Graph, live: set<NodeId>, a: Attempt, whole: State, carried: map<NodeId, Json>)
    requires WellFormed(g) && IsAttempt(g, a) && Sound(g, ReadingOf(g), a.carried) && g.nodes.Keys <= live
    requires WholeRun(g, whole)
    requires Traceable(g, a.carried, whole)
    requires carried == CarriedOutputs(Replay(a.run.states[a.stop].log).nodes, live)
    ensures Traceable(g, carried, whole)
  {
    StopTraceable(RunInput(g, a.carried), a.run, a.stop, whole, live);
  }

  /** So what a chain carries always goes back to a carried None, or is what an uninterrupted run
      completes. */
  lemma {:induction false} ChainTraceable(g: Graph, live: set<NodeId>, chain: seq<Attempt>, clock: seq<nat>, k: nat,
                                          whole: State)
    requires WellFormed(g) && IsChain(g, live, chain, clock) && k < |chain| && g.nodes.Keys <= live
    requires WholeRun(g, whole)
    ensures Traceable(g, chain[k].carried, whole)
  {
    if k == 0 {
      NothingIsTraceable(g, chain[0].carried, whole);
    } else {
      var before := k - 1;
      ChainTraceable(g, live, chain, clock, before, whole);
      ChainIsSound(g, live, chain, clock, before);
      CarriedFrom(g, live, chain, clock, k);
      AttemptTraceable(g, live, chain[before], whole, chain[k].carried);
    }
  }

  lemma CarriedFrom(g: Graph, live: set<NodeId>, chain: seq<Attempt>, clock: seq<nat>, k: nat)
    requires IsChain(g, live, chain, clock) && 0 < k < |chain|
    ensures IsAttempt(g, chain[k - 1])
    ensures chain[k].carried == CarriedOutputs(Replay(chain[k - 1].run.states[chain[k - 1].stop].log).nodes, live)
  {
    var a := chain[k - 1];
    assert Resumes(g, live, chain[k - 1], chain[k - 1 + 1], clock[k - 1]);
    if a.sweep.Some? {
      SweepCarriesTheSame(Replay(a.run.states[a.stop].log), a.sweep.value, clock[k - 1], live);
    }
  }

  /** No carried output of the graph is None. */
  ghost predicate NoNoneCarried(g: Graph, carried: map<NodeId, Json>) {
    forall n :: n in carried && n in g.nodes ==> carried[n] != Null
  }

  /** Carrying only what the uninterrupted run completes leaves its equations as they are. */
  lemma WholeSolvesResumed(g: Graph, rd: Readings, whole: State, carried: map<NodeId, Json>, n: NodeId)
    requires n in g.nodes && EndsRight(g, rd, whole, map[], n)
    requires n in carried ==> n in whole.completed
    ensures EndsRight(g, rd, whole, carried, n)
  {
  }

  /** Resume soundness: whatever its nodes compute, a run of a chain that completes ends with the
      outputs, completed and skipped nodes of an uninterrupted completed run exactly when nothing
      it carried is None. */
  lemma ResumedEqualsUninterrupted(g: Graph, live: set<NodeId>, chain: seq<Attempt>, clock: seq<nat>, k: nat,
                                   whole: Run)
    requires WellFormed(g) && IsChain(g, live, chain, clock) && k < |chain| && g.nodes.Keys <= live
    requires EndsWith(RunInput(g, chain[k].carried), chain[k].run, RunCompleted) && Disciplined(chain[k].run)
    requires EndsWith(RunInput(g, map[]), whole, RunCompleted) && Disciplined(whole)
    ensures var s, w := Last(chain[k].run), Last(whole);
      NoNoneCarried(g, chain[k].carried)
      <==> s.context == w.context && s.completed == w.completed && s.skipped == w.skipped
  {
    var rd, r, s, w := ReadingOf(g), RunInput(g, chain[k].carried), Last(chain[k].run), Last(whole);
    ReadingExists(g);
    ChainIsSound(g, live, chain, clock, k);
    RunKeeps(r, rd, chain[k].run, |chain[k].run.events|);
    RunKeeps(RunInput(g, map[]), rd, whole, |whole.events|);
    forall n | n in g.nodes ensures EndsRight(g, rd, s, r.carried, n) && EndsRight(g, rd, w, map[], n) {
      CompletedRunEndsRight(r, rd, chain[k].run, n);
      CompletedRunEndsRight(RunInput(g, map[]), rd, whole, n);
    }
    ChainTraceable(g, live, chain, clock, k, w);
    if NoNoneCarried(g, r.carried) {
      SameSolution(g, rd, s, w, r.carried);
    } else {
      NoneMakesDifference(g, rd, s, w, r.carried);
    }
  }

  lemma SameSolution(g: Graph, rd: Readings, s: State, w: State, carried: map<NodeId, Json>)
    requires WellFormed(g) && Inv(g, rd, s) && Inv(g, rd, w)
    requires forall n :: n in g.nodes ==> EndsRight(g, rd, s, carried, n) && EndsRight(g, rd, w, map[], n)
    requires Traceable(g, carried, w) && NoNoneCarried(g, carried)
    ensures s.context == w.context && s.completed == w.completed && s.skipped == w.skipped
  {
    forall n | n in g.nodes ensures EndsRight(g, rd, w, carried, n) {
      WholeSolvesResumed(g, rd, w, carried, n);
    }
    forall n | n in g.nodes
      ensures (n in s.completed <==> n in w.completed) && (n in s.skipped <==> n in w.skipped)
      ensures n in s.remaining <==> n in w.remaining
    {
      OneSolution(g, rd, s, w, carried, n);
    }
    SameEnds(g, rd, s, w);
  }

  // ---------- a resume of an edited draft ----------

  /** In the pinned graph an uninterrupted run completes every carried node that is not None. */
  lemma PinnedRunCompletesCarried(g: Graph, carried: map<NodeId, Json>, w: State)
    requires WellFormed(g) && NoNoneCarried(g, carried)
    requires forall n :: n in g.nodes ==>
      EndsRight(Pin(g, carried), PinnedReading(g, carried), w, map[], n)
    ensures forall n :: n in carried && n in g.nodes ==> n in w.completed
  {
    var pin, rd := Pin(g, carried), PinnedReading(g, carried);
    PinIsSound(g, carried);
    forall n | n in carried && n in g.nodes ensures n in w.completed {
      PinNeighbours(g, carried, n);
      assert EndsRight(pin, rd, w, map[], n) && rd[n] == Output(carried[n]);
      assert !Marked(pin, rd, w.completed, n);
    }
  }

  /** When the definition was edited, carried outputs need not be those of its reading. A completed
      run of it still ends as an uninterrupted run of the pinned graph, where a carried node depends
      on nothing and computes what was carried, exactly when nothing carried is None. */
  lemma EditedResumeIsPinned(r: RunInput, run: Run, whole: Run)
    requires WellFormed(r.graph)
    requires EndsWith(r, run, RunCompleted) && Disciplined(run)
    requires EndsWith(RunInput(Pin(r.graph, r.carried), map[]), whole, RunCompleted) && Disciplined(whole)
    ensures var s, w := Cleared(Last(run)), Last(whole);
      NoNoneCarried(r.graph, r.carried)
      <==> s.context == w.context && s.completed == w.completed && s.skipped == w.skipped
  {
    var pin, rd, s, w := Pin(r.graph, r.carried), PinnedReading(r.graph, r.carried), Cleared(Last(run)), Last(whole);
    PinIsSound(r.graph, r.carried);
    RunIsPinned(r, run);
    RunKeeps(PinnedInput(r), rd, ClearedRun(run), |run.events|);
    RunKeeps(RunInput(pin, map[]), rd, whole, |whole.events|);
    forall n | n in pin.nodes ensures EndsRight(pin, rd, s, r.carried, n) && EndsRight(pin, rd, w, map[], n) {
      CompletedRunEndsRight(PinnedInput(r), rd, ClearedRun(run), n);
      CompletedRunEndsRight(RunInput(pin, map[]), rd, whole, n);
    }
    if NoNoneCarried(r.graph, r.carried) {
      PinnedRunCompletesCarried(r.graph, r.carried, w);
      SameSolution(pin, rd, s, w, r.carried);
    } else {
      NoneMakesDifference(pin, rd, s, w, r.carried);
    }
  }

  /** A carried None is completed here and lost in an uninterrupted run. */
  lemma NoneMakesDifference(g: Graph, rd: Readings, s: State, w: State, carried: map<NodeId, Json>)
    requires IsReading(g, rd) && Sound(g, rd, carried) && !NoNoneCarried(g, carried)
    requires forall n :: n in g.nodes ==> EndsRight(g, rd, s, carried, n) && EndsRight(g, rd, w, map[], n)
    ensures s.completed != w.completed
  {
    var n :| n in carried && n in g.nodes && carried[n] == Null;
    assert EndsRight(g, rd, s, carried, n) && EndsRight(g, rd, w, map[], n);
    assert rd[n] == Output(Null) && n in s.completed && n !in w.completed;
  }
}
