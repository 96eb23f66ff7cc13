/** The completion queue's lock and condition variable, with any number of pushers, any
    number of shutdowns and the one waiter. */
module Wakeups {
  import opened Common
  import opened OpTypes

  type Entry = (nat, Status)

  datatype Holder = Free | WaiterHas | ShutterHas(notified: bool)

  // `Home` is between two calls of `wait`; `Wanting` needs the lock; `Checking` holds it.
  datatype WaiterPc = Home | Wanting | Checking | Parked | Over

  datatype Sys = Sys(
    queue: seq<Entry>,
    shutdown: bool,
    lock: Holder,
    waiter: WaiterPc,
    owed: nat,               // pushers past the unlock and before their notify_one
    pushed: seq<Entry>,      // everything ever pushed
    taken: seq<Entry>)       // everything `wait` ever returned

  datatype Move =
    | Push(e: Entry) | NotifyOne
    | Enter | Acquire | Check | Spurious
    | ShutLock | ShutNotify | ShutUnlock

  const START: Sys := Sys([], false, Free, Home, 0, [], [])

  predicate May(s: Sys, m: Move) {
    match m
    case Push(_) => s.lock.Free?
    case NotifyOne => s.owed > 0
    case Enter => s.waiter.Home?
    case Acquire => s.waiter.Wanting? && s.lock.Free?
    case Check => s.waiter.Checking?
    case Spurious => s.waiter.Parked?
    case ShutLock => s.lock.Free?
    case ShutNotify => s.lock == ShutterHas(false)
    case ShutUnlock => s.lock == ShutterHas(true)
  }

  function Woken(s: Sys): Sys {
    if s.waiter.Parked? then s.(waiter := Wanting) else s
  }

  function Do(s: Sys, m: Move): Sys
    requires May(s, m)
  {
    match m
    case Push(e) => s.(queue := s.queue + [e], pushed := s.pushed + [e], owed := s.owed + 1)
    case NotifyOne => Woken(s).(owed := s.owed - 1)
    case Enter => s.(waiter := Wanting)
    case Acquire => s.(waiter := Checking, lock := WaiterHas)
    case Check =>
      if s.queue != [] then
        s.(queue := s.queue[1..], taken := s.taken + [s.queue[0]], waiter := Home, lock := Free)
      else if s.shutdown then s.(waiter := Over, lock := Free)
      else s.(waiter := Parked, lock := Free)
    case Spurious => s.(waiter := Wanting)
    case ShutLock => s.(shutdown := true, lock := ShutterHas(false))
    case ShutNotify => Woken(s).(lock := ShutterHas(true))
    case ShutUnlock => s.(lock := Free)
  }

  predicate Runs(s: Sys, ms: seq<Move>)
    decreases |ms|
  {
    ms == [] || (May(s, ms[0]) && Runs(Do(s, ms[0]), ms[1..]))
  }

  function Reached(s: Sys, ms: seq<Move>): Sys
    requires Runs(s, ms)
    decreases |ms|
  {
    if ms == [] then s else Reached(Do(s, ms[0]), ms[1..])
  }

  predicate SysInv(s: Sys) {
    && s.taken + s.queue == s.pushed
    && (s.waiter.Checking? <==> s.lock.WaiterHas?)
    && (s.waiter.Parked? && s.queue != [] ==> s.owed > 0)
    && (s.waiter.Parked? && s.shutdown ==> s.lock == ShutterHas(false))
    && (s.waiter.Over? ==> s.shutdown)
  }

  lemma {:induction false} SysInvHolds(s: Sys, ms: seq<Move>)
    requires SysInv(s) && Runs(s, ms)
    ensures SysInv(Reached(s, ms))
    decreases |ms|
  {
    if ms != [] {
      var s' := Do(s, ms[0]);
      assert SysInv(s') by {
        if ms[0].Push? {
          assert s.taken + (s.queue + [ms[0].e]) == (s.taken + s.queue) + [ms[0].e];
        } else if ms[0].Check? && s.queue != [] {
          assert (s.taken + [s.queue[0]]) + s.queue[1..] == s.taken + s.queue;
        }
      }
      SysInvHolds(s', ms[1..]);
    }
  }

  /** No lost wakeup: a waiter asleep over a non-empty queue is still owed a notification,
      and one asleep over a set shutdown flag is owed the notify_all its holder of the lock
      is about to make. So once `shutdown` has released the lock nobody sleeps through it. */
  lemma NoLostWakeup(ms: seq<Move>)
    requires Runs(START, ms) && Reached(START, ms).waiter.Parked?
    ensures var s := Reached(START, ms);
            && (s.queue != [] ==> May(s, NotifyOne) && Do(s, NotifyOne).waiter.Wanting?)
            && (s.shutdown ==> May(s, ShutNotify) && Do(s, ShutNotify).waiter.Wanting?)
  {
    SysInvHolds(START, ms);
  }

  /** Completions come out in exactly the order they went in, none lost or invented. */
  lemma FirstInFirstOut(ms: seq<Move>)
    requires Runs(START, ms)
    ensures var s := Reached(START, ms); s.taken <= s.pushed && s.taken + s.queue == s.pushed
  {
    SysInvHolds(START, ms);
  }

  /** `wait` reports shutdown only when it was requested and everything pushed before has
      been handed out. */
  lemma ShutdownComesLast(ms: seq<Move>)
    requires Runs(START, ms) && May(Reached(START, ms), Check)
    requires Do(Reached(START, ms), Check).waiter.Over?
    ensures var s := Reached(START, ms); s.shutdown && s.taken == s.pushed
  {
    SysInvHolds(START, ms);
    assert Reached(START, ms).taken + [] == Reached(START, ms).taken;
  }
}
