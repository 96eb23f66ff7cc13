/** The operation cell and the completion queue, as the objects the library mutates. */
module Completions {
  import opened Common
  import opened OpTypes
  import R = Registry

  /** What happened to the queue while a waiter slept on the condition variable. */
  datatype Wake = Wake(pushed: seq<(nat, Status)>, shut: bool, timedOut: bool)

  // `Asleep` is a waiter nothing has woken yet.
  datatype WaitResult = Ready(op: nat, st: Status) | TimedOut | ShutDown | Asleep

  /** After `n` wakes the wait has nothing to return yet: no entry, no shutdown, and no
      timeout of its own. */
  predicate StillWaiting(q: seq<(nat, Status)>, shut: bool, timeoutMs: int, ws: seq<Wake>, n: nat)
    requires n <= |ws|
  {
    if n == 0 then q == [] && !shut
    else
      && StillWaiting(q, shut, timeoutMs, ws, n - 1)
      && ws[n - 1].pushed == [] && !ws[n - 1].shut && !(timeoutMs >= 0 && ws[n - 1].timedOut)
  }

  class Queue {
    var queue: seq<(nat, Status)>
    var shutdown: bool
    ghost var pushed: seq<(nat, Status)>    // everything ever pushed
    ghost var taken: seq<(nat, Status)>     // everything `wait` ever returned

    /** What was handed out is a prefix of what was pushed, and the rest is still queued. */
    ghost predicate Valid()
      reads this
    {
      taken + queue == pushed
    }

    constructor ()
      ensures Valid() && queue == [] && !shutdown && pushed == []
    {
      queue := [];
      shutdown := false;
      pushed, taken := [], [];
    }

    method Push(op: nat, st: Status)
      requires Valid()
      modifies this`queue, this`pushed
      ensures Valid() && queue == old(queue) + [(op, st)] && pushed == old(pushed) + [(op, st)]
    {
      queue := queue + [(op, st)];
      pushed := pushed + [(op, st)];
    }

    method Shutdown()
      modifies this`shutdown
      ensures shutdown
    {
      shutdown := true;
    }

    /** `wait`, driven by what other threads do each time it sleeps. It returns at the first
        moment there is something to return: the oldest entry if there is one, else shutdown,
        else its timeout. */
    method Wait(timeoutMs: int, wakes: seq<Wake>) returns (r: WaitResult, used: nat)
      requires Valid()
      modifies this
      ensures used <= |wakes|
      ensures Valid() && taken == old(taken) + (if r.Ready? then [(r.op, r.st)] else [])
      ensures pushed == old(pushed) + (if used == 0 then [] else wakes[used - 1].pushed)
      ensures used > 0 ==> StillWaiting(old(queue), old(shutdown), timeoutMs, wakes, used - 1)
      ensures r.Asleep? <==> StillWaiting(old(queue), old(shutdown), timeoutMs, wakes, used)
      ensures r.Asleep? ==> used == |wakes|
      ensures var there := if used == 0 then old(queue) else wakes[used - 1].pushed;
              && shutdown == (if used == 0 then old(shutdown) else wakes[used - 1].shut)
              && (if there != [] then r == Ready(there[0].0, there[0].1) && queue == there[1..]
                  else queue == [] && !r.Ready?
                       && (if shutdown then r == ShutDown else r == TimedOut || r == Asleep))
    {
      used := 0;
      while true
        invariant Valid() && used <= |wakes| && taken == old(taken)
        invariant pushed == old(pushed) + (if used == 0 then [] else wakes[used - 1].pushed)
        invariant queue == (if used == 0 then old(queue) else wakes[used - 1].pushed)
        invariant shutdown == (if used == 0 then old(shutdown) else wakes[used - 1].shut)
        invariant used > 0 ==> StillWaiting(old(queue), old(shutdown), timeoutMs, wakes, used - 1)
        invariant used > 0 && timeoutMs >= 0 && wakes[used - 1].timedOut ==> queue != []
        decreases |wakes| - used
      {
        if queue != [] {
          r := Ready(queue[0].0, queue[0].1);
          taken := taken + [queue[0]];
          queue := queue[1..];
          return;
        }
        if shutdown { return ShutDown, used; }
        if used == |wakes| { return Asleep, used; }
        var w := wakes[used];
        queue := queue + w.pushed;
        pushed := pushed + w.pushed;
        shutdown := shutdown || w.shut;
        used := used + 1;
        if timeoutMs >= 0 && w.timedOut && queue == [] {
          return if shutdown then ShutDown else TimedOut, used;
        }
      }
    }
  }

  /** The abort side of a spawned task. */
  class AbortHandle {
    var aborted: bool

    constructor ()
      ensures !aborted
    {
      aborted := false;
    }
  }

  // ---- the operation cell over a history of calls ---------------------------------------

  /** What an operation's fields say; `aborted` is that of the stored abort handle. */
  datatype Cell = Cell(cancelRequested: bool, stored: bool, aborted: bool, result: Option<Outcome>)

  datatype Use = UPost(r: Outcome) | UCancel | UStore | UTake

  const EMPTY: Cell := Cell(false, false, false, None)

  function Next(c: Cell, u: Use): Cell {
    match u
    case UPost(r) => c.(result := Some(r))
    case UCancel => c.(cancelRequested := true, aborted := c.aborted || c.stored)
    case UStore => c.(stored := true, aborted := c.cancelRequested)
    case UTake => c.(result := None)
  }

  function After(c: Cell, us: seq<Use>): Cell {
    if us == [] then c else Next(After(c, us[..|us| - 1]), us[|us| - 1])
  }

  lemma {:induction false} FlagsRemember(us: seq<Use>)
    ensures var c := After(EMPTY, us);
            && (c.cancelRequested <==> UCancel in us) && (c.stored <==> UStore in us)
            && (c.aborted <==> c.cancelRequested && c.stored)
  {
    if us != [] {
      FlagsRemember(us[..|us| - 1]);
      assert us == us[..|us| - 1] + [us[|us| - 1]];
    }
  }

  /** No cancel is lost between `cancel` and `spawn`: the task is aborted exactly when both a
      cancel and the storing of its abort handle happened, in either order and however often. */
  lemma {:induction false} AbortedIffBoth(us: seq<Use>)
    ensures After(EMPTY, us).aborted <==> UCancel in us && UStore in us
  {
    FlagsRemember(us);
  }

  /** What the take at position `i` returns. */
  function TakenAt(us: seq<Use>, i: nat): Outcome
    requires i < |us| && us[i].UTake?
  {
    After(EMPTY, us[..i]).result.GetOr(Err(Internal))
  }

  /** Between these positions nobody posts or takes. */
  predicate Untouched(us: seq<Use>, from: nat, to: nat)
    requires from <= to <= |us|
  {
    forall k :: from <= k < to ==> !us[k].UPost? && !us[k].UTake?
  }

  lemma {:induction false} ResultStays(us: seq<Use>, from: nat, to: nat)
    requires from <= to <= |us| && Untouched(us, from, to)
    ensures After(EMPTY, us[..to]).result == After(EMPTY, us[..from]).result
  {
    if from < to {
      ResultStays(us, from, to - 1);
      assert us[..to][..|us[..to]| - 1] == us[..to - 1] && us[..to][|us[..to]| - 1] == us[to - 1];
    }
  }

  /** An outcome is handed out once: the first take after a post returns what was posted, and
      one after that, with no post in between, finds nothing. */
  lemma {:induction false} TakenOnce(us: seq<Use>, p: nat, i: nat)
    requires p < i < |us| && us[i].UTake? && Untouched(us, p + 1, i)
    ensures us[p].UPost? ==> TakenAt(us, i) == us[p].r
    ensures us[p].UTake? ==> TakenAt(us, i) == Err(Internal)
  {
    ResultStays(us, p + 1, i);
    assert us[..p + 1][..|us[..p + 1]| - 1] == us[..p] && us[..p + 1][|us[..p + 1]| - 1] == us[p];
  }

  /** What is left for `Drop` to release: the last posted outcome, unless it was taken since. */
  lemma {:induction false} DropFindsUnclaimed(us: seq<Use>, p: nat)
    requires p < |us| && Untouched(us, p + 1, |us|)
    ensures us[p].UPost? ==> After(EMPTY, us).result == Some(us[p].r)
    ensures us[p].UTake? ==> After(EMPTY, us).result == None
  {
    ResultStays(us, p + 1, |us|);
    assert us[..|us|] == us;
    assert us[..p + 1][..|us[..p + 1]| - 1] == us[..p] && us[..p + 1][|us[..p + 1]| - 1] == us[p];
  }

  class Op {
    const id: nat
    var cancelRequested: bool
    var abort: AbortHandle?
    var result: Option<Outcome>

    constructor (id: nat)
      ensures this.id == id && !cancelRequested && abort == null && result == None
    {
      this.id := id;
      cancelRequested := false;
      abort := null;
      result := None;
    }

    /** The fields, as the histories above see them. */
    function State(): Cell
      reads this, abort
    {
      Cell(cancelRequested, abort != null, abort != null && abort.aborted, result)
    }

    /** Stores the outcome, then pushes the one completion that describes it. */
    method Post(c: Queue, r: Outcome)
      requires c.Valid()
      modifies this`result, c`queue, c`pushed
      ensures c.Valid() && State() == Next(old(State()), UPost(r)) && result == Some(r)
      ensures c.queue == old(c.queue) + [(id, StatusOf(r))]
    {
      var st := match r
        case Ok(_) => StOk
        case Err(k) => if k == Cancelled then StCancelled else StErr;
      result := Some(r);
      c.Push(id, st);
    }

    method Cancel()
      modifies this`cancelRequested, abort
      ensures State() == Next(old(State()), UCancel) && cancelRequested
      ensures abort != null ==> abort.aborted
    {
      cancelRequested := true;
      if abort != null {
        abort.aborted := true;
      }
    }

    /** The rest of `spawn`: store the abort handle, then honour a cancel that came first. */
    method StoreAbort(h: AbortHandle)
      modifies this`abort, h
      ensures abort == h
      ensures h.aborted == (old(h.aborted) || cancelRequested)
      ensures !old(h.aborted) ==> State() == Next(old(State()), UStore)
    {
      abort := h;
      if cancelRequested {
        h.aborted := true;
      }
    }

    method TakeResult() returns (r: Outcome)
      modifies this`result
      ensures State() == Next(old(State()), UTake) && result == None
      ensures r == if old(result).Some? then old(result).value else Err(Internal)
    {
      r := if result.Some? then result.value else Err(Internal);
      result := None;
    }

    /** `Drop`: an unclaimed value's handles leave the registry, nothing else does. */
    method Drop(t: R.HandleTable)
      requires t.Valid()
      modifies t.shards
      ensures t.Valid()
      ensures t.Flat() == old(t.Flat()) - (if result.Some? then OutcomeHandles(result.value) else {})
    {
      if result.Some? && result.value.Ok? {
        match result.value.value
        case Handle(h) =>
          var _ := t.Remove(h);
        case Handle2(a, b) =>
          var _ := t.Remove(a);
          var _ := t.Remove(b);
          assert old(t.Flat()) - {a} - {b} == old(t.Flat()) - {a, b};
        case _ => assert t.Flat() - {} == t.Flat();
      } else {
        assert t.Flat() - {} == t.Flat();
      }
    }
  }
}
