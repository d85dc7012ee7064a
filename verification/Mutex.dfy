/** The lock of a session entry (runtime/src/session-manager.ts): a flag and a queue of waiters,
    and the registry that hands out entries by key. */
module Mutexes {
  import opened Common

  type Request = nat

  /** A lock with its history: who asked for it and who got it, in order. */
  datatype Lock = Lock(locked: bool, queue: seq<Request>, acquired: seq<Request>, granted: seq<Request>)

  function Unlocked(): Lock {
    Lock(false, [], [], [])
  }

  function TryAcquire(l: Lock, r: Request): Lock {
    if l.locked then l.(queue := l.queue + [r]) else l.(locked := true, granted := l.granted + [r])
  }

  function Acquired(l: Lock, r: Request): Lock {
    TryAcquire(l.(acquired := l.acquired + [r]), r)
  }

  /** Unlock, then let the first waiter try again. */
  function Released(l: Lock): Lock {
    if l.queue == [] then l.(locked := false)
    else TryAcquire(l.(locked := false, queue := l.queue[1..]), l.queue[0])
  }

  /** Waiters exist only while locked; who was granted or waits is who asked, in that order. */
  ghost predicate Orderly(l: Lock) {
    && (!l.locked ==> l.queue == [])
    && l.acquired == l.granted + l.queue
    && (l.locked ==> l.granted != [])
  }

  /** Every acquire and every release keep the order; a release passes the lock to the waiter
      that asked first. */
  lemma LockKeeps(l: Lock, r: Request)
    requires Orderly(l)
    ensures Orderly(Acquired(l, r)) && Orderly(Released(l))
    ensures l.granted <= Acquired(l, r).granted && l.granted <= Released(l).granted
    ensures Released(l).granted == l.granted + if l.queue == [] then [] else [l.queue[0]]
  {
    var a, b := Acquired(l, r), Released(l);
    assert a.acquired == a.granted + a.queue;
    if l.queue != [] {
      assert l.queue == [l.queue[0]] + l.queue[1..];
    }
    assert b.acquired == b.granted + b.queue;
  }

  // ---------- any interleaving of acquires and releases ----------

  datatype Op = Ask(r: Request) | Give

  function After(ops: seq<Op>): Lock {
    if ops == [] then Unlocked()
    else
      var l, op := After(ops[..|ops| - 1]), ops[|ops| - 1];
      match op
      case Ask(r) => Acquired(l, r)
      case Give => Released(l)
  }

  /** One release per grant: a release only while somebody holds the lock. */
  ghost predicate Legal(ops: seq<Op>) {
    forall k :: 0 <= k < |ops| && ops[k].Give? ==> After(ops[..k]).locked
  }

  function Asked(ops: seq<Op>): seq<Request> {
    if ops == [] then []
    else Asked(ops[..|ops| - 1]) + if ops[|ops| - 1].Ask? then [ops[|ops| - 1].r] else []
  }

  function Given(ops: seq<Op>): nat {
    if ops == [] then 0 else Given(ops[..|ops| - 1]) + if ops[|ops| - 1].Give? then 1 else 0
  }

  /** At most one holder, grants in the order of the acquires, waiters only while locked. */
  lemma {:induction false} FirstComeFirstServed(ops: seq<Op>)
    requires Legal(ops)
    ensures Orderly(After(ops))
    ensures After(ops).granted <= Asked(ops) && Asked(ops) == After(ops).granted + After(ops).queue
    ensures |After(ops).granted| == Given(ops) + if After(ops).locked then 1 else 0
  {
    if ops != [] {
      var front, op := ops[..|ops| - 1], ops[|ops| - 1];
      assert forall k :: 0 <= k < |front| ==> front[..k] == ops[..k];
      FirstComeFirstServed(front);
      LockKeeps(After(front), if op.Ask? then op.r else 0);
    }
  }

  class Mutex {
    ghost const number: nat
    var locked: bool
    var queue: seq<Request>
    ghost var acquired: seq<Request>
    ghost var granted: seq<Request>

    constructor (ghost number: nat)
      ensures View() == Unlocked() && this.number == number
    {
      this.number := number;
      locked, queue, acquired, granted := false, [], [], [];
    }

    ghost function View(): Lock
      reads this
    {
      Lock(locked, queue, acquired, granted)
    }

    /** Grants at once, or queues the caller; `now` tells which. */
    method Acquire(r: Request) returns (now: bool)
      modifies this
      ensures View() == Acquired(old(View()), r)
      ensures now == !old(locked)
    {
      acquired := acquired + [r];
      now := !locked;
      if !locked {
        locked := true;
        granted := granted + [r];
      } else {
        queue := queue + [r];
      }
    }

    /** Called once per grant; the waiter that gets the lock next, if any. */
    method Release() returns (next: Option<Request>)
      requires locked
      modifies this
      ensures View() == Released(old(View()))
      ensures next == if old(queue) == [] then None else Some(old(queue)[0])
    {
      locked := false;
      next := None;
      if queue != [] {
        var waiter := queue[0];
        queue := queue[1..];
        locked := true;
        granted := granted + [waiter];
        next := Some(waiter);
      }
    }
  }
}
