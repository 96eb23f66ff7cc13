/** The deadline cell of a stream half, the contexts it arms, and the handle cell, as the
    objects the Go code mutates. */
module Deadlines {
  import opened Common
  import opened OpTypes
  import opened StreamHalf

  class Context {
    const dl: Deadline
    var err: Option<CtxErr>

    /** `context.WithCancel` or `context.WithDeadline` at time `now`. */
    constructor (dl: Deadline, now: nat)
      ensures this.dl == dl
      ensures err == if dl.At? && dl.t <= now then Some(DeadlineExceeded) else None
    {
      this.dl := dl;
      err := if Expired(dl, now) then Some(DeadlineExceeded) else None;
    }

    method End(cause: CtxErr)
      modifies this
      ensures err == if old(err).Some? then old(err) else Some(cause)
    {
      if err == None {
        err := Some(cause);
      }
    }
  }

  class DeadlineCell {
    var t: Deadline
    var armed: map<nat, Context>
    var next: nat

    /** Registrations are numbered below `next` and each has a context of its own. */
    ghost predicate Valid()
      reads this
    {
      && (forall id :: id in armed ==> id < next)
      && (forall a, b :: a in armed && b in armed && armed[a] == armed[b] ==> a == b)
    }

    constructor ()
      ensures Valid() && t == Never && armed == map[] && next == 0
    {
      t := Never;
      armed := map[];
      next := 0;
    }

    /** Stores the deadline and cancels every context armed under an earlier one. */
    method Set(t: Deadline)
      requires Valid()
      modifies this`t, armed.Values
      ensures Valid() && this.t == t
      ensures forall id :: id in armed ==>
        armed[id].err == if old(armed[id].err).Some? then old(armed[id].err) else Some(Canceled)
    {
      this.t := t;
      var pending := armed.Keys;
      while pending != {}
        invariant this.t == t && pending <= armed.Keys
        invariant forall id :: id in armed ==>
          armed[id].err == if id in pending then old(armed[id].err) else EndErr(old(armed[id].err), Canceled)
      {
        var id :| id in pending;
        armed[id].End(Canceled);
        pending := pending - {id};
      }
    }

    method Arm(now: nat) returns (ctx: Context, id: nat)
      requires Valid()
      modifies this`armed, this`next
      ensures Valid() && fresh(ctx) && ctx.dl == t
      ensures ctx.err == if t.At? && t.t <= now then Some(DeadlineExceeded) else None
      ensures id == old(next) && next == id + 1
      ensures id !in old(armed) && armed == old(armed)[id := ctx]
    {
      ctx := new Context(t, now);
      id := next;
      next := next + 1;
      armed := armed[id := ctx];
    }

    /** The release function `Arm` returns. */
    method Release(ctx: Context, id: nat)
      requires Valid()
      modifies this`armed, ctx
      ensures Valid() && armed == old(armed) - {id}
      ensures ctx.err == EndErr(old(ctx.err), Canceled)
    {
      armed := armed - {id};
      ctx.End(Canceled);
    }
  }

  /** The atomic cell holding a library object's id, 0 once taken. */
  class HandleCell {
    var v: nat

    constructor (id: nat)
      ensures v == id
    {
      v := id;
    }

    method Get() returns (r: Result<nat, ErrKind>)
      ensures r == if v != 0 then Ok(v) else Err(ErrKind.Closed)
    {
      if v != 0 { return Ok(v); }
      return Err(ErrKind.Closed);
    }

    method Take() returns (h: nat)
      modifies this
      ensures h == old(v) && v == 0
    {
      h := v;
      v := 0;
    }
  }

  // ---- the cell over a history of calls ----------------------------------------------------

  datatype Access = Getting | Taking

  /** What the cell holds after these calls of `Get` and `Take`. */
  function CellAfter(id: nat, calls: seq<Access>): nat {
    if calls == [] then id
    else if calls[|calls| - 1].Taking? then 0
    else CellAfter(id, calls[..|calls| - 1])
  }

  /** Exactly one taker: the id is there for every call before and up to the first Take, and
      for none after it. So of any number of closes one gets the handle, and every later Get
      finds it closed. */
  lemma {:induction false} OneTaker(id: nat, calls: seq<Access>, i: nat)
    requires i < |calls| && id != 0
    ensures CellAfter(id, calls[..i]) == id <==> forall k :: 0 <= k < i ==> calls[k].Getting?
    ensures CellAfter(id, calls[..i]) == 0 <==> exists k :: 0 <= k < i && calls[k].Taking?
  {
    if i > 0 {
      OneTaker(id, calls, i - 1);
      var before := calls[..i];
      assert before[..|before| - 1] == calls[..i - 1] && before[|before| - 1] == calls[i - 1];
    }
  }
}
