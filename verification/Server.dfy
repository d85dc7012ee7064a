/** The /message handler of runtime/src/server.ts over the session registry: each request takes
    the lock of its entry, runs, releases, and removes the entry's key from the registry. */
module Server {
  import opened Common
  import opened Mutexes

  /** Stands for one session and agent. */
  type Key = string

  datatype Session = Session(key: Key, entry: nat, running: bool)

  /** Entries are numbered as they are created. */
  datatype World = World(registry: map<Key, nat>, locks: seq<Lock>, sessions: map<Request, Session>)

  /** The stretches between awaits: everything up to waiting for the lock, and everything after
      the last chunk; and a removal from outside, as of DELETE /sessions. */
  datatype Event = Arrive(r: Request, key: Key) | Finish(r: Request) | Remove(key: Key)

  function Fresh(): World {
    World(map[], [], map[])
  }

  predicate Enabled(w: World, e: Event) {
    match e
    case Arrive(r, _) => r !in w.sessions && forall k :: k in w.registry ==> w.registry[k] < |w.locks|
    case Finish(r) => r in w.sessions && w.sessions[r].running && w.sessions[r].entry < |w.locks|
    case Remove(_) => true
  }

  /** getOrCreate: the entry of the key, a new one when there is none. */
  function GotEntry(w: World, key: Key): nat {
    if key in w.registry then w.registry[key] else |w.locks|
  }

  function WithEntry(w: World, key: Key): World {
    if key in w.registry then w
    else w.(registry := w.registry[key := |w.locks|], locks := w.locks + [Unlocked()])
  }

  function Arrived(w: World, r: Request, key: Key): World
    requires Enabled(w, Arrive(r, key))
  {
    var e, w1 := GotEntry(w, key), WithEntry(w, key);
    w1.(locks := w1.locks[e := Acquired(w1.locks[e], r)],
        sessions := w1.sessions[r := Session(key, e, !w1.locks[e].locked)])
  }

  function Woken(sessions: map<Request, Session>, queue: seq<Request>): map<Request, Session> {
    if queue != [] && queue[0] in sessions then sessions[queue[0] := sessions[queue[0]].(running := true)] else sessions
  }

  /** The finally block: release, then remove by key. */
  function Finished(w: World, r: Request): World
    requires Enabled(w, Finish(r))
  {
    var s := w.sessions[r];
    World(w.registry - {s.key}, w.locks[s.entry := Released(w.locks[s.entry])],
          Woken(w.sessions - {r}, w.locks[s.entry].queue))
  }

  function Apply(w: World, e: Event): World
    requires Enabled(w, e)
  {
    match e
    case Arrive(r, key) => Arrived(w, r, key)
    case Finish(r) => Finished(w, r)
    case Remove(key) => w.(registry := w.registry - {key})
  }

  datatype Run = Run(events: seq<Event>, worlds: seq<World>)

  ghost predicate IsRun(run: Run) {
    && |run.worlds| == |run.events| + 1 && run.worlds[0] == Fresh()
    && forall i :: 0 <= i < |run.events| ==>
         Enabled(run.worlds[i], run.events[i]) && run.worlds[i + 1] == Apply(run.worlds[i], run.events[i])
  }

  // ---------- one holder per entry ----------

  ghost predicate Holds(w: World, r: Request, e: nat) {
    r in w.sessions && w.sessions[r].entry == e && w.sessions[r].running
  }

  ghost predicate Waits(w: World, r: Request, e: nat) {
    r in w.sessions && w.sessions[r].entry == e && !w.sessions[r].running
  }

  /** The lock of an entry tells who runs and who waits on it. */
  ghost predicate EntryOk(w: World, e: nat)
    requires e < |w.locks|
  {
    && Orderly(w.locks[e])
    && (forall r, r' :: Holds(w, r, e) && Holds(w, r', e) ==> r == r')
    && (w.locks[e].locked <==> exists r :: Holds(w, r, e))
    && (forall r :: Waits(w, r, e) <==> r in w.locks[e].queue)
    && NoDuplicates(w.locks[e].queue)
  }

  ghost predicate Inv(w: World) {
    && (forall k :: k in w.registry ==> w.registry[k] < |w.locks|)
    && (forall r :: r in w.sessions ==> w.sessions[r].entry < |w.locks|)
    && (forall e :: 0 <= e < |w.locks| ==> EntryOk(w, e))
  }

  lemma ArriveKeeps(w: World, r: Request, key: Key, e: nat)
    requires Inv(w) && Enabled(w, Arrive(r, key)) && e < |Arrived(w, r, key).locks|
    ensures EntryOk(Arrived(w, r, key), e)
  {
    var w', got := Arrived(w, r, key), GotEntry(w, key);
    if e < |w.locks| {
      assert EntryOk(w, e);
      LockKeeps(w.locks[e], r);
    } else {
      LockKeeps(Unlocked(), r);
    }
    forall q | q != r ensures Holds(w', q, e) <==> Holds(w, q, e) {
    }
    forall q | q != r ensures Waits(w', q, e) <==> Waits(w, q, e) {
    }
    if e < |w.locks| && w.locks[e].locked {
      var q :| Holds(w, q, e);
      assert Holds(w', q, e);
    } else if e == got {
      assert Holds(w', r, e);
    }
    if e == got && e < |w.locks| && w.locks[e].locked {
      assert r !in w.locks[e].queue;
    }
  }

  lemma FinishKeeps(w: World, r: Request, e: nat)
    requires Inv(w) && Enabled(w, Finish(r)) && e < |w.locks|
    ensures EntryOk(Finished(w, r), e)
  {
    var w', done := Finished(w, r), w.sessions[r].entry;
    var queue := w.locks[done].queue;
    assert EntryOk(w, e) && EntryOk(w, done);
    assert Holds(w, r, done);
    LockKeeps(w.locks[e], r);
    if queue != [] {
      assert Waits(w, queue[0], done);
    }
    if e == done {
      forall q ensures Holds(w', q, e) <==> queue != [] && q == queue[0] {
        assert Holds(w, q, e) ==> q == r;
      }
      forall q ensures Waits(w', q, e) <==> queue != [] && q in queue[1..] {
        if queue != [] { assert queue == [queue[0]] + queue[1..]; }
        assert Waits(w, q, e) <==> q in queue;
      }
      if queue != [] {
        assert Holds(w', queue[0], e);
      }
    } else {
      forall q ensures (Holds(w', q, e) <==> Holds(w, q, e)) && (Waits(w', q, e) <==> Waits(w, q, e)) {
      }
    }
  }

  lemma RemoveKeeps(w: World, key: Key, e: nat)
    requires Inv(w) && e < |w.locks|
    ensures EntryOk(Apply(w, Remove(key)), e)
  {
    var w' := Apply(w, Remove(key));
    assert EntryOk(w, e);
    assert forall q :: Holds(w', q, e) <==> Holds(w, q, e);
    assert forall q :: Waits(w', q, e) <==> Waits(w, q, e);
  }

  lemma StepKeeps(w: World, e: Event)
    requires Inv(w) && Enabled(w, e)
    ensures Inv(Apply(w, e))
  {
    var w' := Apply(w, e);
    forall n | 0 <= n < |w'.locks| ensures EntryOk(w', n) {
      match e {
        case Arrive(r, key) => ArriveKeeps(w, r, key, n);
        case Finish(r) => FinishKeeps(w, r, n);
        case Remove(key) => RemoveKeeps(w, key, n);
      }
    }
  }

  /** In every world of every run, each entry is locked exactly while one request runs on it, has
      waiters only while it is locked, and grants in the order of the acquires. */
  lemma {:induction false} RunKeeps(run: Run, k: nat)
    requires IsRun(run) && k < |run.worlds|
    ensures Inv(run.worlds[k])
  {
    if k > 0 {
      RunKeeps(run, k - 1);
      assert run.worlds[k - 1 + 1] == Apply(run.worlds[k - 1], run.events[k - 1]);
      StepKeeps(run.worlds[k - 1], run.events[k - 1]);
    }
  }

  lemma OneHolderPerEntry(run: Run, k: nat, r: Request, r': Request)
    requires IsRun(run) && k < |run.worlds|
    requires r in run.worlds[k].sessions && run.worlds[k].sessions[r].running
    requires r' in run.worlds[k].sessions && run.worlds[k].sessions[r'].running
    requires run.worlds[k].sessions[r].entry == run.worlds[k].sessions[r'].entry
    ensures r == r'
  {
    RunKeeps(run, k);
    var e := run.worlds[k].sessions[r].entry;
    assert EntryOk(run.worlds[k], e);
    assert Holds(run.worlds[k], r, e) && Holds(run.worlds[k], r', e);
  }

  // ---------- when two requests of one key overlap ----------

  /** The event takes the key out of the registry. */
  ghost predicate Removes(w: World, e: Event, key: Key) {
    match e
    case Arrive(_, _) => false
    case Finish(r) => r in w.sessions && w.sessions[r].key == key
    case Remove(k) => k == key
  }

  lemma RegisteredStays(w: World, e: Event, key: Key)
    requires Enabled(w, e) && key in w.registry && !Removes(w, e, key)
    ensures key in Apply(w, e).registry && Apply(w, e).registry[key] == w.registry[key]
  {
  }

  /** Without a removal the key keeps its entry. */
  lemma {:induction false} EntryStays(run: Run, i: nat, j: nat, key: Key)
    requires IsRun(run) && i <= j < |run.worlds| && key in run.worlds[i].registry
    requires forall n :: i <= n < j ==> !Removes(run.worlds[n], run.events[n], key)
    ensures key in run.worlds[j].registry && run.worlds[j].registry[key] == run.worlds[i].registry[key]
    decreases j
  {
    if i < j {
      EntryStays(run, i, j - 1, key);
      assert run.worlds[j - 1 + 1] == Apply(run.worlds[j - 1], run.events[j - 1]);
      RegisteredStays(run.worlds[j - 1], run.events[j - 1], key);
    }
  }

  lemma SessionStays(w: World, e: Event, r: Request)
    requires Enabled(w, e) && r in w.sessions && e != Finish(r)
    ensures r in Apply(w, e).sessions
    ensures Apply(w, e).sessions[r].key == w.sessions[r].key && Apply(w, e).sessions[r].entry == w.sessions[r].entry
  {
  }

  /** A request keeps the entry it got for as long as it lives. */
  lemma {:induction false} SessionKeepsEntry(run: Run, r: Request, i: nat, k: nat)
    requires IsRun(run) && i < k < |run.worlds| && run.events[i].Arrive? && run.events[i].r == r
    requires forall n :: i < n < k ==> run.events[n] != Finish(r)
    ensures r in run.worlds[k].sessions
    ensures run.worlds[k].sessions[r].key == run.events[i].key
    ensures run.worlds[k].sessions[r].entry == GotEntry(run.worlds[i], run.events[i].key)
  {
    assert run.worlds[i + 1] == Apply(run.worlds[i], run.events[i]);
    if i + 1 < k {
      SessionKeepsEntry(run, r, i, k - 1);
      assert run.worlds[k - 1 + 1] == Apply(run.worlds[k - 1], run.events[k - 1]);
      SessionStays(run.worlds[k - 1], run.events[k - 1], r);
    }
  }

  ghost predicate Runs(w: World, r: Request) {
    r in w.sessions && w.sessions[r].running
  }

  /** Two requests of one key run at once only if the key was removed from the registry after
      the first and before the second got its entry. */
  lemma OverlapNeedsRemove(run: Run, i: nat, j: nat, k: nat)
    requires IsRun(run) && i < j < k < |run.worlds|
    requires run.events[i].Arrive? && run.events[j].Arrive? && run.events[i].key == run.events[j].key
    requires forall n :: i < n < k ==> run.events[n] != Finish(run.events[i].r)
    requires forall n :: j < n < k ==> run.events[n] != Finish(run.events[j].r)
    requires Runs(run.worlds[k], run.events[i].r) && Runs(run.worlds[k], run.events[j].r)
    ensures exists n :: i < n < j && Removes(run.worlds[n], run.events[n], run.events[i].key)
  {
    var key := run.events[i].key;
    SessionKeepsEntry(run, run.events[i].r, i, k);
    SessionKeepsEntry(run, run.events[j].r, j, k);
    SessionKeepsEntry(run, run.events[i].r, i, j);
    if forall n :: i < n < j ==> !Removes(run.worlds[n], run.events[n], key) {
      assert run.worlds[i + 1] == Apply(run.worlds[i], run.events[i]);
      EntryStays(run, i + 1, j, key);
      OneHolderPerEntry(run, k, run.events[i].r, run.events[j].r);
      assert false;
    }
  }

  // ---------- and every waiter gets to run ----------

  /** `run'` goes on from where `run` stands. */
  ghost predicate Extends(run: Run, run': Run) {
    && IsRun(run) && IsRun(run')
    && run.events <= run'.events && run.worlds <= run'.worlds
  }

  ghost function Now(run: Run): World
    requires IsRun(run)
  {
    run.worlds[|run.events|]
  }

  /** Nothing after the end of `run` finishes the request. */
  ghost predicate Spares(run: Run, run': Run, r: Request) {
    forall n :: |run.events| <= n < |run'.events| ==> run'.events[n] != Finish(r)
  }

  lemma ExtendRun(run: Run, e: Event) returns (run': Run)
    requires IsRun(run) && Enabled(Now(run), e)
    ensures Extends(run, run') && run'.events == run.events + [e] && Now(run') == Apply(Now(run), e)
  {
    run' := Run(run.events + [e], run.worlds + [Apply(Now(run), e)]);
  }

  /** Where a waiter stands in the queue of its entry. */
  ghost predicate WaitsAt(w: World, r: Request, e: nat, k: nat) {
    e < |w.locks| && k < |w.locks[e].queue| && w.locks[e].queue[k] == r
  }

  /** When the holder of an entry finishes, the first waiter runs, the others move up, and other
      entries notice nothing. */
  lemma HolderFinishes(w: World, h: Request, r: Request, e: nat, k: nat)
    requires Inv(w) && Holds(w, h, e) && WaitsAt(w, r, e, k)
    ensures Enabled(w, Finish(h)) && h != r
    ensures var w' := Apply(w, Finish(h));
      && (if k == 0 then Holds(w', r, e) else Waits(w', r, e) && WaitsAt(w', r, e, k - 1))
      && forall q :: q in w.sessions && w.sessions[q].entry != e ==> q in w'.sessions && w'.sessions[q] == w.sessions[q]
  {
    var queue := w.locks[e].queue;
    assert EntryOk(w, e);
    assert queue[0] in queue && queue[k] in queue;
    assert Waits(w, r, e) && Waits(w, queue[0], e);
  }

  /** From every world, letting the holders of its entry finish brings a waiter to run; requests on
      other entries stay as they are. No wake-up is lost. */
  lemma {:induction false} WaiterCanRun(run: Run, r: Request, k: nat) returns (run': Run)
    requires IsRun(run) && r in Now(run).sessions
    requires WaitsAt(Now(run), r, Now(run).sessions[r].entry, k)
    ensures Extends(run, run') && Spares(run, run', r) && Holds(Now(run'), r, Now(run).sessions[r].entry)
    ensures forall q :: q in Now(run).sessions && Now(run).sessions[q].entry != Now(run).sessions[r].entry ==>
              Spares(run, run', q) && q in Now(run').sessions && Now(run').sessions[q] == Now(run).sessions[q]
    decreases k
  {
    var w := Now(run);
    var e := w.sessions[r].entry;
    RunKeeps(run, |run.events|);
    assert EntryOk(w, e);
    var h :| Holds(w, h, e);
    HolderFinishes(w, h, r, e, k);
    run' := ExtendRun(run, Finish(h));
    if k > 0 {
      run' := WaiterCanRun(run', r, k - 1);
    }
  }

  /** So every live request can be brought to run beside whatever runs on other entries. */
  lemma LiveCanRun(run: Run, r: Request) returns (run': Run)
    requires IsRun(run) && r in Now(run).sessions
    ensures Extends(run, run') && Spares(run, run', r) && Holds(Now(run'), r, Now(run).sessions[r].entry)
    ensures forall q :: q in Now(run).sessions && Now(run).sessions[q].entry != Now(run).sessions[r].entry ==>
              Spares(run, run', q) && q in Now(run').sessions && Now(run').sessions[q] == Now(run).sessions[q]
  {
    var w := Now(run);
    var e := w.sessions[r].entry;
    if w.sessions[r].running {
      run' := run;
    } else {
      RunKeeps(run, |run.events|);
      assert EntryOk(w, e) && Waits(w, r, e);
      var k :| 0 <= k < |w.locks[e].queue| && w.locks[e].queue[k] == r;
      run' := WaiterCanRun(run, r, k);
    }
  }

  // ---------- exactly when requests of one key can overlap ----------

  lemma {:induction false} LocksGrow(run: Run, i: nat, j: nat)
    requires IsRun(run) && i <= j < |run.worlds|
    ensures |run.worlds[i].locks| <= |run.worlds[j].locks|
    decreases j
  {
    if i < j {
      LocksGrow(run, i, j - 1);
      assert run.worlds[j - 1 + 1] == Apply(run.worlds[j - 1], run.events[j - 1]);
    }
  }

  /** After a removal the key can only get a new entry. */
  lemma {:induction false} NewEntryAfterRemoval(run: Run, n: nat, j: nat, key: Key)
    requires IsRun(run) && n < j < |run.worlds| && Removes(run.worlds[n], run.events[n], key)
    ensures key in run.worlds[j].registry ==> run.worlds[j].registry[key] >= |run.worlds[n].locks|
    decreases j
  {
    assert run.worlds[j - 1 + 1] == Apply(run.worlds[j - 1], run.events[j - 1]);
    if n + 1 < j {
      NewEntryAfterRemoval(run, n, j - 1, key);
      LocksGrow(run, n, j - 1);
    }
  }

  /** A removal between two arrivals of one key gives them different entries. */
  lemma RemovalSeparates(run: Run, i: nat, n: nat, j: nat, key: Key)
    requires IsRun(run) && i < n < j < |run.events| && Removes(run.worlds[n], run.events[n], key)
    requires run.events[i].Arrive? && run.events[i].key == key
    ensures GotEntry(run.worlds[i], key) < GotEntry(run.worlds[j], key)
  {
    RunKeeps(run, i);
    assert run.worlds[i + 1] == Apply(run.worlds[i], run.events[i]);
    LocksGrow(run, i + 1, n);
    LocksGrow(run, n, j);
    NewEntryAfterRemoval(run, n, j, key);
  }

  /** The run can go on, finishing neither request, to a world in which both run. */
  ghost predicate CanOverlap(run: Run, r: Request, r': Request) {
    exists run' :: Extends(run, run') && Spares(run, run', r) && Spares(run, run', r')
                   && Runs(Now(run'), r) && Runs(Now(run'), r')
  }

  /** Two live requests on different entries can be brought to run at once. */
  lemma BothCanRun(run: Run, r: Request, r': Request)
    requires IsRun(run) && r in Now(run).sessions && r' in Now(run).sessions
    requires Now(run).sessions[r].entry != Now(run).sessions[r'].entry
    ensures CanOverlap(run, r, r')
  {
    var first := LiveCanRun(run, r);
    var both := LiveCanRun(first, r');
    SparedTwice(run, first, both, r);
    SparedTwice(run, first, both, r');
    assert Runs(Now(both), r) && Runs(Now(both), r');
  }

  /** Two live requests of one key can come to run at once exactly when the key was removed from
      the registry between their arrivals. */
  lemma OverlapExactly(run: Run, i: nat, j: nat)
    requires IsRun(run) && i < j < |run.events|
    requires run.events[i].Arrive? && run.events[j].Arrive? && run.events[i].key == run.events[j].key
    requires forall n :: i < n < |run.events| ==> run.events[n] != Finish(run.events[i].r)
    requires forall n :: j < n < |run.events| ==> run.events[n] != Finish(run.events[j].r)
    ensures CanOverlap(run, run.events[i].r, run.events[j].r)
            <==> exists n :: i < n < j && Removes(run.worlds[n], run.events[n], run.events[i].key)
  {
    var r, r', key := run.events[i].r, run.events[j].r, run.events[i].key;
    if CanOverlap(run, r, r') {
      var run' :| Extends(run, run') && Spares(run, run', r) && Spares(run, run', r')
                  && Runs(Now(run'), r) && Runs(Now(run'), r');
      OverlapComesFrom(run, run', i, j);
    }
    if n :| i < n < j && Removes(run.worlds[n], run.events[n], key) {
      RemovalSeparates(run, i, n, j, key);
      SessionKeepsEntry(run, r, i, |run.events|);
      SessionKeepsEntry(run, r', j, |run.events|);
      BothCanRun(run, r, r');
    }
  }

  lemma SparedTwice(run: Run, first: Run, both: Run, r: Request)
    requires Extends(run, first) && Extends(first, both) && Spares(run, first, r) && Spares(first, both, r)
    ensures Extends(run, both) && Spares(run, both, r)
  {
    forall n | |run.events| <= n < |both.events| ensures both.events[n] != Finish(r) {
      if n < |first.events| {
        assert both.events[n] == first.events[n];
      }
    }
  }

  lemma OverlapComesFrom(run: Run, run': Run, i: nat, j: nat)
    requires Extends(run, run') && i < j < |run.events|
    requires run.events[i].Arrive? && run.events[j].Arrive? && run.events[i].key == run.events[j].key
    requires forall n :: i < n < |run.events| ==> run.events[n] != Finish(run.events[i].r)
    requires forall n :: j < n < |run.events| ==> run.events[n] != Finish(run.events[j].r)
    requires Spares(run, run', run.events[i].r) && Spares(run, run', run.events[j].r)
    requires Runs(Now(run'), run.events[i].r) && Runs(Now(run'), run.events[j].r)
    ensures exists n :: i < n < j && Removes(run.worlds[n], run.events[n], run.events[i].key)
  {
    forall n | 0 <= n < |run.events| ensures run'.events[n] == run.events[n] && run'.worlds[n] == run.worlds[n] {
    }
    OverlapNeedsRemove(run', i, j, |run'.events|);
    var n :| i < n < j && Removes(run'.worlds[n], run'.events[n], run'.events[i].key);
    assert Removes(run.worlds[n], run.events[n], run.events[i].key);
  }

  // ---------- the registry and the handler on objects ----------

  class SessionManager {
    var registered: map<Key, Mutex>            // _sessions, by key
    ghost var entries: seq<Mutex>              // every entry ever made
    ghost var sessions: map<Request, Session>

    ghost predicate Valid()
      reads this, entries
    {
      && (forall i, j :: 0 <= i < j < |entries| ==> entries[i] != entries[j])
      && (forall i :: 0 <= i < |entries| ==> entries[i].number == i)
      && (forall k :: k in registered ==>
            registered[k].number < |entries| && entries[registered[k].number] == registered[k])
    }

    ghost function View(): World
      reads this, entries
    {
      World(map k | k in registered :: registered[k].number,
            seq(|entries|, i requires 0 <= i < |entries| reads this, entries => entries[i].View()), sessions)
    }

    constructor ()
      ensures Valid() && View() == Fresh()
    {
      registered, entries, sessions := map[], [], map[];
    }

    method GetOrCreate(key: Key) returns (entry: Mutex)
      requires Valid()
      modifies this
      ensures Valid() && View() == WithEntry(old(View()), key)
      ensures entry.number == GotEntry(old(View()), key) && entry.number < |entries| && entries[entry.number] == entry
      ensures fresh(entry) || (entry.number < |old(entries)| && old(entries)[entry.number] == entry)
    {
      if key in registered {
        return registered[key];
      }
      entry := new Mutex(|entries|);
      registered := registered[key := entry];
      entries := entries + [entry];
      assert View().locks == old(View()).locks + [Unlocked()];
      assert View().registry == old(View()).registry[key := |old(entries)|];
    }

    method RemoveKey(key: Key) returns (removed: bool)
      requires Valid()
      modifies this
      ensures Valid() && View() == Apply(old(View()), Remove(key)) && entries == old(entries)
      ensures removed == (key in old(registered))
    {
      removed := key in registered;
      registered := registered - {key};
      assert View().registry == old(View()).registry - {key};
    }

    method TakeLock(entry: Mutex, r: Request) returns (now: bool)
      requires Valid() && entry.number < |entries| && entries[entry.number] == entry
      modifies entry
      ensures Valid() && now == !old(entry.locked)
      ensures View() == old(View()).(locks := old(View()).locks[entry.number := Acquired(old(entry.View()), r)])
    {
      now := entry.Acquire(r);
      assert View().locks == old(View()).locks[entry.number := Acquired(old(entry.View()), r)];
    }

    /** The handler up to waiting for the lock; `now` tells whether it need not wait. */
    method Arrives(r: Request, key: Key) returns (entry: Mutex, now: bool)
      requires Valid() && r !in sessions
      modifies this, entries
      ensures Valid() && Enabled(old(View()), Arrive(r, key)) && View() == Apply(old(View()), Arrive(r, key))
      ensures now == View().sessions[r].running && entry.number == View().sessions[r].entry
    {
      entry := GetOrCreate(key);
      now := TakeLock(entry, r);
      sessions := sessions[r := Session(key, entry.number, now)];
    }

    /** The finally block of a running request. */
    method Finishes(r: Request, key: Key, entry: Mutex)
      requires Valid() && r in sessions && sessions[r] == Session(key, entry.number, true)
      requires entry.number < |entries| && entries[entry.number] == entry && entry.locked
      modifies this, entries
      ensures Valid() && Enabled(old(View()), Finish(r)) && View() == Apply(old(View()), Finish(r))
    {
      var next := entry.Release();
      sessions := Woken(sessions - {r}, if next.Some? then [next.value] else []);
      assert View().locks == Apply(old(View()), Finish(r)).locks;
      var removed := RemoveKey(key);
    }
  }
}
