/** How runs end: no node is lost, no round stalls, and a completed run leaves exactly the
    reading of the graph, whatever the interleaving. */
module Outcomes {
  import opened Common
  import opened Dag
  import opened Engine
  import opened Readings
  import opened Safety
  import opened Pinned
  import opened Settlements

  // ---------- verdicts ----------

  /** Nodes taken out of `remaining` that are neither completed nor skipped: failed and
      cancelled ones, and those whose output was None. Nothing downstream of them can run. */
  ghost function Lost(g: Graph, s: State): set<NodeId> {
    g.nodes.Keys - s.remaining - s.completed - s.skipped
  }

  ghost predicate VerdictOk(g: Graph, s: State) {
    match s.phase
    case Draining(_, v) => VerdictFits(g, s, v)
    case Ended(v) => VerdictFits(g, s, v)
    case _ => true
  }

  /** Failure wins over cancel. */
  ghost predicate VerdictFits(g: Graph, s: State, v: RunStatus) {
    && (v == RunFailed || v == RunCancelled || v == RunCompleted)
    && (v == RunFailed <==> s.failure.Some?)
    && (v == RunCancelled ==> s.cancelled)
  }

  lemma VerdictKeeps(g: Graph, s: State, e: Event, s': State)
    requires VerdictOk(g, s) && Step(g, s, e, s')
    ensures VerdictOk(g, s')
  {
  }

  lemma {:induction false} VerdictThroughout(r: RunInput, run: Run, k: nat)
    requires IsRun(r, run) && k < |run.states|
    ensures VerdictOk(r.graph, run.states[k])
  {
    if k > 0 {
      VerdictThroughout(r, run, k - 1);
      assert Step(r.graph, run.states[k - 1], run.events[k - 1], run.states[k - 1 + 1]);
      VerdictKeeps(r.graph, run.states[k - 1], run.events[k - 1], run.states[k]);
    }
  }

  // ---------- no stall ----------

  /** The first node of a set in plan order. */
  lemma {:induction false} EarliestNode(g: Graph, some: set<NodeId>, k: nat) returns (id: NodeId)
    requires WellFormed(g) && some <= g.nodes.Keys && k <= |g.plan|
    requires some != {} && forall n :: n in some ==> Position(g, n) >= k
    ensures id in some && forall n :: n in some ==> Position(g, id) <= Position(g, n)
    decreases |g.plan| - k
  {
    if id' :| id' in some && Position(g, id') == k {
      id := id';
    } else {
      var n :| n in some;
      assert Position(g, n) > k;
      id := EarliestNode(g, some, k + 1);
    }
  }

  /** With no node lost, a nonempty `remaining` always has a frontier: the stall branch is dead. */
  lemma NoStall(g: Graph, s: State)
    requires WellFormed(g) && s.remaining <= g.nodes.Keys
    requires s.remaining != {} && Lost(g, s) == {}
    ensures Frontier(g, s) != {}
  {
    var id := EarliestNode(g, s.remaining, 0);
    forall u | u in Upstream(g, id) ensures u in s.completed + s.skipped {
      UpstreamIsEarlier(g, id);
      assert u !in s.remaining;
      assert u !in Lost(g, s);
    }
    assert id in Frontier(g, s);
  }

  // ---------- how a completed run ends ----------

  /** The variables of `run` hold the reading: outputs, completed and skipped nodes. */
  ghost predicate HoldsReading(g: Graph, rd: Readings, s: State) {
    && rd.Keys == g.nodes.Keys
    && s.completed == (set n | n in g.nodes && rd[n].Output?)
    && s.skipped == (set n | n in g.nodes && rd[n].Skipped?)
    && s.context == (map n | n in g.nodes && rd[n].Output? :: rd[n].value)
    && s.remaining == {}
  }

  /** A run reported "completed" holds the reading if and only if it lost no node. */
  lemma CompletedIffNothingLost(r: RunInput, run: Run)
    requires WellFormed(r.graph) && Sound(r.graph, ReadingOf(r.graph), r.carried)
    requires EndsWith(r, run, RunCompleted)
    ensures IsReading(r.graph, ReadingOf(r.graph))
    ensures HoldsReading(r.graph, ReadingOf(r.graph), Last(run)) <==> Lost(r.graph, Last(run)) == {}
  {
    var g, rd, s := r.graph, ReadingOf(r.graph), Last(run);
    ReadingExists(g);
    RunKeeps(r, rd, run, |run.events|);
    if Lost(g, s) == {} {
      if s.remaining != {} {
        NoStall(g, s);
        assert false;
      }
      forall n | n in g.nodes
        ensures n in s.completed <==> rd[n].Output?
        ensures n in s.skipped <==> rd[n].Skipped?
      {
        assert n !in Lost(g, s);
      }
      assert s.skipped == set n | n in g.nodes && rd[n].Skipped?;
      assert s.completed == set n | n in g.nodes && rd[n].Output?;
    } else {
      var n :| n in Lost(g, s);
      assert rd[n].Output? || rd[n].Skipped?;
    }
  }

  /** Every node that reads None has been carried over. */
  ghost predicate NoneOnlyCarried(rd: Readings, carried: map<NodeId, Json>) {
    forall n :: n in rd && rd[n] == Output(Null) ==> n in carried
  }

  /** A completed run whose cancelled dispatches follow the signal holds the reading, so that
      every plan node is completed or skipped, exactly when no node reads None that was not
      carried over; for a fresh run, exactly when no node of the graph reads None. */
  lemma CompletedRunHoldsReading(r: RunInput, run: Run)
    requires WellFormed(r.graph) && Sound(r.graph, ReadingOf(r.graph), r.carried)
    requires EndsWith(r, run, RunCompleted) && Disciplined(run)
    ensures IsReading(r.graph, ReadingOf(r.graph))
    ensures HoldsReading(r.graph, ReadingOf(r.graph), Last(run)) <==> NoneOnlyCarried(ReadingOf(r.graph), r.carried)
  {
    var g, rd, s := r.graph, ReadingOf(r.graph), Last(run);
    ReadingExists(g);
    CompletedIffNothingLost(r, run);
    ReasonsThroughout(r, rd, run, |run.events|);
    AccountsThroughout(r, rd, run, |run.events|);
    CarriedThroughout(r, run, |run.events|);
    if NoneOnlyCarried(rd, r.carried) {
      assert forall n :: n in g.nodes ==> n !in Lost(g, s);
    }
    if HoldsReading(g, rd, s) {
      forall n | n in rd && rd[n] == Output(Null) ensures n in r.carried {
        assert n in s.completed;
      }
    }
  }

  /** What `run` holds and what a graph means, given any outputs carried into it, be they those of
      its reading or, after an edit, not. */
  ghost predicate HoldsPinned(r: RunInput, s: State)
    requires WellFormed(r.graph)
  {
    HoldsReading(r.graph, PinnedReading(r.graph, r.carried), Cleared(s))
  }

  /** With sound carried outputs this is to hold the reading. */
  lemma SoundHoldsPinned(r: RunInput, run: Run, k: nat)
    requires WellFormed(r.graph) && Sound(r.graph, ReadingOf(r.graph), r.carried) && IsRun(r, run) && k < |run.states|
    ensures HoldsPinned(r, run.states[k]) <==> HoldsReading(r.graph, ReadingOf(r.graph), run.states[k])
  {
    SoundPinsNothing(r.graph, r.carried);
    ReadingExists(r.graph);
    RunKeeps(r, ReadingOf(r.graph), run, k);
    PinThroughout(r, run, k);
    var s := run.states[k];
    forall n | n in s.skipped ensures n !in s.carried {
      assert n in ReadingOf(r.graph) && ReadingOf(r.graph)[n] == Skipped;
    }
    assert Cleared(s) == s;
  }

  /** The same for whatever was carried: a completed run holds the pinned reading, each carried
      node reading what was carried, exactly when no other node reads None. */
  lemma PinnedRunHoldsReading(r: RunInput, run: Run)
    requires WellFormed(r.graph)
    requires EndsWith(r, run, RunCompleted) && Disciplined(run)
    ensures HoldsPinned(r, Last(run)) <==> NoneOnlyCarried(PinnedReading(r.graph, r.carried), r.carried)
  {
    PinIsSound(r.graph, r.carried);
    RunIsPinned(r, run);
    CompletedRunHoldsReading(PinnedInput(r), ClearedRun(run));
  }

  /** Read off the end of the run, exactly when no node is lost. */
  lemma PinnedIffNothingLost(r: RunInput, run: Run)
    requires WellFormed(r.graph) && EndsWith(r, run, RunCompleted)
    ensures HoldsPinned(r, Last(run)) <==> Lost(r.graph, Last(run)) == {}
  {
    PinIsSound(r.graph, r.carried);
    RunIsPinned(r, run);
    CompletedIffNothingLost(PinnedInput(r), ClearedRun(run));
    PinThroughout(r, run, |run.events|);
    assert Lost(Pin(r.graph, r.carried), Cleared(Last(run))) == Lost(r.graph, Last(run));
  }

  /** Completed runs agree across carried outputs too, when what reads None was carried. */
  lemma ConfluenceAcrossResumes(g: Graph, carried: map<NodeId, Json>, run: Run, carried': map<NodeId, Json>, run': Run)
    requires WellFormed(g)
    requires Sound(g, ReadingOf(g), carried) && NoneOnlyCarried(ReadingOf(g), carried)
    requires Sound(g, ReadingOf(g), carried') && NoneOnlyCarried(ReadingOf(g), carried')
    requires EndsWith(RunInput(g, carried), run, RunCompleted) && Disciplined(run)
    requires EndsWith(RunInput(g, carried'), run', RunCompleted) && Disciplined(run')
    ensures Last(run).context == Last(run').context
    ensures Last(run).completed == Last(run').completed
    ensures Last(run).skipped == Last(run').skipped
  {
    CompletedRunHoldsReading(RunInput(g, carried), run);
    CompletedRunHoldsReading(RunInput(g, carried'), run');
  }

  // ---------- a quiet run completes ----------

  ghost predicate Quiet(s: State) {
    && !s.cancelled && s.failure.None?
    && (forall id :: id in s.tasks && s.tasks[id].Finished? ==> !s.tasks[id].outcome.Failed?)
  }

  lemma {:induction false} QuietThroughout(r: RunInput, run: Run, k: nat)
    requires IsRun(r, run) && NoCancel(run) && NoFailure(run) && k < |run.states|
    ensures Quiet(run.states[k])
  {
    if k > 0 {
      QuietThroughout(r, run, k - 1);
      assert Step(r.graph, run.states[k - 1], run.events[k - 1], run.states[k - 1 + 1]);
      assert run.events[k - 1] in run.events;
    }
  }

  /** A run without failure or cancel that ends, ends "completed", whatever it carries, and holds
      the pinned reading exactly when what reads None was carried. */
  lemma QuietRunCompletes(r: RunInput, run: Run, v: RunStatus)
    requires WellFormed(r.graph) && Disciplined(run)
    requires EndsWith(r, run, v) && NoCancel(run) && NoFailure(run)
    ensures v == RunCompleted
    ensures HoldsPinned(r, Last(run)) <==> NoneOnlyCarried(PinnedReading(r.graph, r.carried), r.carried)
  {
    QuietThroughout(r, run, |run.events|);
    VerdictThroughout(r, run, |run.events|);
    PinnedRunHoldsReading(r, run);
  }

  // ---------- safety, as a reader of the code would ask for it ----------

  ghost predicate InFlight(s: State, id: NodeId) {
    id in s.tasks && s.tasks[id].Dispatched?
  }

  /** In every state of every run: a dispatched node has all its upstreams settled, and nodes that
      are both completed and skipped were carried, against the reading. */
  lemma SafeInEveryState(r: RunInput, run: Run, k: nat)
    requires WellFormed(r.graph) && IsRun(r, run) && k < |run.states|
    ensures run.states[k].completed * run.states[k].skipped <= r.carried.Keys
    ensures Sound(r.graph, ReadingOf(r.graph), r.carried) ==> run.states[k].completed !! run.states[k].skipped
    ensures forall id :: InFlight(run.states[k], id) ==> Settled(r.graph, run.states[k], id)
  {
    var s, rd := run.states[k], PinnedReading(r.graph, r.carried);
    PinThroughout(r, run, k);
    forall id | InFlight(s, id) ensures Settled(r.graph, s, id) {
      assert s.phase.InRound? && Settled(Pin(r.graph, s.carried), Cleared(s), id);
      OpenTaskAside(r.graph, rd, s, id);
      CarriedAside(r.graph, rd, s);
    }
    forall n | n in s.completed && n in s.skipped ensures n in r.carried {
      assert n !in Cleared(s).skipped;
    }
    if Sound(r.graph, ReadingOf(r.graph), r.carried) {
      ReadingExists(r.graph);
      RunKeeps(r, ReadingOf(r.graph), run, k);
    }
  }

  /** A node in flight or completed in one state is marked skipped in no state of the run, unless it
      was carried against the reading. */
  lemma NeverSkippedAfterwards(r: RunInput, run: Run, k: nat, later: nat, id: NodeId)
    requires WellFormed(r.graph) && IsRun(r, run) && k < |run.states| && later < |run.states|
    requires InFlight(run.states[k], id) || id in run.states[k].completed
    ensures id in run.states[later].skipped ==> id in r.carried && !Sound(r.graph, ReadingOf(r.graph), r.carried)
  {
    if id !in r.carried {
      PinnedNeverSkipped(r, run, k, later, id);
    }
    if Sound(r.graph, ReadingOf(r.graph), r.carried) {
      ReadingExists(r.graph);
      OutputNeverSkipped(r, ReadingOf(r.graph), run, k, later, id);
    }
  }

  lemma OutputNeverSkipped(r: RunInput, rd: Readings, run: Run, k: nat, later: nat, id: NodeId)
    requires IsReading(r.graph, rd) && Sound(r.graph, rd, r.carried)
    requires IsRun(r, run) && k < |run.states| && later < |run.states|
    requires InFlight(run.states[k], id) || id in run.states[k].completed
    ensures id !in run.states[later].skipped
  {
    RunKeeps(r, rd, run, k);
    RunKeeps(r, rd, run, later);
    if InFlight(run.states[k], id) {
      assert TaskOk(r.graph, rd, id, run.states[k].tasks[id]);
    }
  }

  lemma PinnedNeverSkipped(r: RunInput, run: Run, k: nat, later: nat, id: NodeId)
    requires WellFormed(r.graph) && IsRun(r, run) && k < |run.states| && later < |run.states|
    requires InFlight(run.states[k], id) || id in run.states[k].completed
    requires id !in r.carried
    ensures id !in run.states[later].skipped
  {
    var cleared := ClearedRun(run);
    PinIsSound(r.graph, r.carried);
    RunIsPinned(r, run);
    PinThroughout(r, run, later);
    assert cleared.states[k] == Cleared(run.states[k]) && cleared.states[later] == Cleared(run.states[later]);
    OutputNeverSkipped(PinnedInput(r), PinnedReading(r.graph, r.carried), cleared, k, later, id);
  }
}
