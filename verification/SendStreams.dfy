/** SendStream as the object the Go code mutates, one call at a time, with everything that
    may happen around the call given as a list of events. */
module SendStreams {
  import opened Common
  import opened OpTypes
  import opened StreamHalf
  import opened Deadlines
  import opened StreamEvents

  /** The library's send stream: what it accepted, and how often it was finished or reset. */
  class LibSend {
    var log: seq<byte>
    var terminals: nat
    var freed: bool

    constructor ()
      ensures log == [] && terminals == 0 && !freed
    {
      log, terminals, freed := [], 0, false;
    }
  }

  lemma PrefixGrows(data: seq<byte>, n: nat, k: nat)
    requires n + k <= |data|
    ensures data[..n] + data[n..][..k] == data[..n + k]
  {
  }

  class SendStream {
    const h: HandleCell
    const deadline: DeadlineCell
    const lib: LibSend
    const clock: Clock

    constructor (h: nat, lib: LibSend, clock: Clock)
      requires lib.terminals == 0
      ensures Valid() && fresh(this.h) && fresh(deadline) && this.lib == lib && this.clock == clock
      ensures this.h.v == h && deadline.t == Never && deadline.armed == map[]
    {
      this.h := new HandleCell(h);
      deadline := new DeadlineCell();
      this.lib := lib;
      this.clock := clock;
    }

    /** At most one terminal operation: none is left to do once the handle is gone. */
    ghost predicate Valid()
      reads h, deadline, lib
    {
      && deadline.Valid()
      && lib.terminals + Ind(h.v != 0) <= 1
    }

    /** What the half is in, for a call on it. */
    ghost function World(): (w: StreamEvents.World)
      reads h, deadline, clock
    {
      StreamEvents.World(deadline.t, clock.now, h.v)
    }

    /** One `ffi.SendWrite`: a count is reported exactly when bytes were accepted, an error
        means none were, and both are as the first event that answers the operation says. */
    method SendWrite(ctx: Context, data: seq<byte>, env: seq<Event>, start: nat, ghost r: Round)
        returns (n: nat, err: Option<GoErr>, done: bool, used: nat)
      requires Valid() && ctx in deadline.armed.Values && InRound(h, deadline, clock, ctx, env, r, start)
      modifies h, deadline`t, deadline.armed.Values, clock, lib`log
      ensures Valid() && InRound(h, deadline, clock, ctx, env, r, used) && start <= used
      ensures if done then used > start else used == |env| && err.None?
      ensures Unanswered(env, r, start, if done then used - 1 else used, false)
      ensures NoLanding(env, start, if done then used - 1 else used)
      ensures done ==> Told(env, r, used, err, CTX_ERRS, CLOSED) && (env[used - 1].Lands? <==> err.None?)
      ensures n == if done && env[used - 1].Lands? then Min(env[used - 1].k, |data|) else 0
      ensures n == Moved(|data|, env, start, used) && lib.log == old(lib.log) + data[..n] && ErrFrom(ctx.err, err)
    {
      used, done := AwaitAnswer(h, deadline, clock, ctx, false, env, start, r);
      n, err := 0, None;
      if done {
        err := ErrOf(env[used - 1], ctx.err);
        if env[used - 1].Lands? {
          n := Min(env[used - 1].k, |data|);
          lib.log := lib.log + data[..n];
        }
      }
      NothingMoved(|data|, env, start, if done then used - 1 else used);
    }

    /** One turn of the loop of `WriteContext`: a write that accepts nothing is an error. */
    method WriteSome(ctx: Context, data: seq<byte>, env: seq<Event>, start: nat, ghost r: Round)
        returns (n: nat, err: Option<GoErr>, done: bool, used: nat)
      requires Valid() && ctx in deadline.armed.Values && data != []
      requires InRound(h, deadline, clock, ctx, env, r, start)
      modifies h, deadline`t, deadline.armed.Values, clock, lib`log
      ensures Valid() && InRound(h, deadline, clock, ctx, env, r, used) && start <= used
      ensures n == Moved(|data|, env, start, used) && lib.log == old(lib.log) + data[..n]
      ensures if done then used > start && (err.None? <==> n > 0) else used == |env| && err.None? && n == 0
      ensures Unanswered(env, r, start, if done then used - 1 else used, false)
      ensures done ==> Told(env, r, used, err, CTX_ERRS, CLOSED) && (err.None? ==> env[used - 1].Lands?)
      ensures ErrFrom(ctx.err, err)
    {
      n, err, done, used := SendWrite(ctx, data, env, start, r);
      if done && err.None? && n == 0 { err := Some(EKind(ErrKind.Stream)); }
    }

    /** The loop of `WriteContext`, under its mutex. */
    method WriteLocked(ctx: Context, data: seq<byte>, env: seq<Event>, start: nat, ghost r: Round)
        returns (n: nat, err: Option<GoErr>, done: bool, used: nat)
      requires Valid() && ctx in deadline.armed.Values && InRound(h, deadline, clock, ctx, env, r, start)
      modifies h, deadline`t, deadline.armed.Values, clock, lib`log
      ensures Valid() && InRound(h, deadline, clock, ctx, env, r, used) && start <= used
      ensures n == Moved(|data|, env, start, used) && lib.log == old(lib.log) + data[..n]
      ensures if done then err.None? ==> n == |data| else used == |env| && err.None? && n < |data|
      ensures err == Some(ECanceled) ==> used > start && n < |data|
      ensures Unanswered(env, r, start, if done && used > start then used - 1 else used, false)
      ensures done && used > start ==> Told(env, r, used, err, CTX_ERRS, CLOSED)
      ensures used == start && done <==> data == []
      ensures used == start && done ==> err.None?
      ensures ErrFrom(ctx.err, err)
    {
      n, used, err := 0, start, None;
      while n < |data|
        invariant Valid() && InRound(h, deadline, clock, ctx, env, r, used) && start <= used
        invariant n == Moved(|data|, env, start, used) && lib.log == old(lib.log) + data[..n]
        invariant Unanswered(env, r, start, used, false)
        invariant if used > start then n > 0 && Told(env, r, used, None, CTX_ERRS, CLOSED) else n == 0
        decreases |data| - n
      {
        ghost var from := used;
        var k;
        k, err, done, used := WriteSome(ctx, data[n..], env, used, r);
        MovedSplits(|data|, env, start, from, used);
        PrefixGrows(data, n, k);
        n := n + k;
        if err.Some? || !done { return; }
      }
      return n, None, true, used;
    }

    /** All of `data`, unless something ends it first; the count is exact either way. */
    method WriteContext(ctx: Context, data: seq<byte>, env: seq<Event>, start: nat, ghost r: Round)
        returns (n: nat, err: Option<GoErr>, done: bool, used: nat)
      requires Valid() && ctx in deadline.armed.Values && InRound(h, deadline, clock, ctx, env, r, start)
      modifies h, deadline`t, deadline.armed.Values, clock, lib`log
      ensures Valid() && InRound(h, deadline, clock, ctx, env, r, used) && start <= used
      ensures n == Moved(|data|, env, start, used) && lib.log == old(lib.log) + data[..n]
      ensures if done then err.None? ==> n == |data| else used == |env| && err.None? && n < |data|
      ensures err == Some(ECanceled) ==> used > start && n < |data|
      ensures Unanswered(env, r, start, if done && used > start then used - 1 else used, false)
      ensures done && used > start ==> Told(env, r, used, err, CTX_ERRS, CLOSED)
      ensures used == start && done <==> old(h.v) == 0 || data == []
      ensures used == start && done ==> err == if old(h.v) == 0 then Some(CLOSED) else None
      ensures ErrFrom(ctx.err, err)
    {
      var id := h.Get();
      if id.Err? { return 0, Some(EKind(id.error)), true, start; }
      n, err, done, used := WriteLocked(ctx, data, env, start, r);
    }

    /** One round of `Write`: arm, write the rest, release. */
    method WriteArmed(data: seq<byte>, env: seq<Event>, start: nat, ghost r: Round)
        returns (n: nat, err: Option<GoErr>, done: bool, used: nat)
      requires Valid() && start <= |env| && r == Round(start, World())
      modifies h, deadline, deadline.armed.Values, clock, lib`log
      ensures Valid() && start <= used <= |env| && World() == Turned(r.w, env, start, used)
      ensures n == Moved(|data|, env, start, used) && lib.log == old(lib.log) + data[..n]
      ensures if done then err.None? ==> n == |data| else used == |env| && err.None? && n < |data|
      ensures err == Some(ECanceled) ==> n < |data|
      ensures Timely(env, r, used, err)
      ensures Unanswered(env, r, start, if done && used > start then used - 1 else used, false)
      ensures done && used > start ==> Told(env, r, used, err, CTX_ERRS, CLOSED)
      ensures used == start && done <==> r.w.handle == 0 || data == []
      ensures used == start && done ==> err == if r.w.handle == 0 then Some(CLOSED) else None
      ensures done ==> deadline.armed == old(deadline.armed)
    {
      var ctx, id := deadline.Arm(clock.now);
      assert deadline.armed[id] == ctx;
      n, err, done, used := WriteContext(ctx, data, env, start, r);
      if done { deadline.Release(ctx, id); }
    }

    /** A round for the rest of `p`, and the loop's verdict on it. */
    method WriteRound(p: seq<byte>, before: nat, env: seq<Event>, start: nat, ghost r: Round)
        returns (written: nat, verdict: Decision, done: bool, used: nat)
      requires Valid() && start <= |env| && before <= |p| && (before < |p| || p == [])
      requires r == Round(start, World())
      modifies h, deadline, deadline.armed.Values, clock, lib`log
      ensures Valid() && start <= used <= |env| && World() == Turned(r.w, env, start, used)
      ensures before <= written <= |p| && written - before == Moved(|p| - before, env, start, used)
      ensures lib.log == old(lib.log) + p[before..written]
      ensures !done ==> used == |env| && written < |p|
      ensures Unanswered(env, r, start, if done && used > start then used - 1 else used, false)
      ensures done && verdict.Stop? && used > start ==> Told(env, r, used, verdict.ret, {EOsDeadline}, CLOSED)
      ensures done && verdict.Stop? && used == start ==> verdict.ret == if r.w.handle == 0 then Some(CLOSED) else None
      ensures done && verdict == Stop(Some(EOsDeadline)) ==> r.w.dl.At? && r.w.dl.t <= clock.now
      ensures done && verdict.Again? ==> written < |p| && start < used && Sets(env, start) < Sets(env, used)
      ensures done && verdict == Stop(None) ==> written == |p|
      ensures used == start && done <==> r.w.handle == 0 || p == []
      ensures done ==> deadline.armed == old(deadline.armed)
    {
      var n, err;
      n, err, done, used := WriteArmed(p[before..], env, start, r);
      written := before + n;
      assert p[before..][..n] == p[before..written];
      verdict := Again;
      if done {
        verdict := Decide(SendHalf, |p|, written, err);
        Verdict(SendHalf, |p|, written, err, env, r, used);
      }
    }

    /** `Write`, until it returns or the events run out with the call still blocked; `last` is
        the round it was in then. It reports exactly what the landings among the events moved,
        which is what the stream took, in order and nothing else; no error means all of it.
        What it returns is what its last event says: the library's own failure, or a timeout
        if an abort met an ended context, and then the deadline the round began under has
        passed; with the handle gone it is closed, and never waits. No event that should have
        ended it is overlooked, every registration is gone again, and it went round once per
        deadline change at most. */
    method Write(p: seq<byte>, env: seq<Event>)
        returns (written: nat, err: Option<GoErr>, done: bool, used: nat, ghost resumes: nat, ghost last: Round)
      requires Valid()
      modifies h, deadline, deadline.armed.Values, clock, lib`log
      ensures Valid() && last.from <= used <= |env|
      ensures last.w == Turned(old(World()), env, 0, last.from) && World() == Turned(old(World()), env, 0, used)
      ensures written == Moved(|p|, env, 0, used) && lib.log == old(lib.log) + p[..written]
      ensures if done then err.None? ==> written == |p| else used == |env| && err.None? && written < |p|
      ensures done && used > last.from ==> Told(env, last, used, err, {EOsDeadline}, CLOSED)
      ensures done && used == last.from ==> err == if last.w.handle == 0 then Some(CLOSED) else None
      ensures used == last.from && done <==> last.w.handle == 0 || p == []
      ensures err == Some(EOsDeadline) ==> last.w.dl.At? && last.w.dl.t <= clock.now
      ensures Unanswered(env, last, last.from, if done && used > last.from then used - 1 else used, false)
      ensures resumes <= Sets(env, used)
      ensures done ==> deadline.armed == old(deadline.armed)
    {
      written, used, resumes := 0, 0, 0;
      while true
        invariant Valid() && used <= |env| && World() == Turned(old(World()), env, 0, used)
        invariant written == Moved(|p|, env, 0, used) && lib.log == old(lib.log) + p[..written]
        invariant resumes <= Sets(env, used)
        invariant written < |p| || (p == [] && used == 0)
        invariant deadline.armed == old(deadline.armed)
        decreases |env| - used
      {
        last := Round(used, World());
        ghost var before := written;
        var verdict;
        written, verdict, done, used := WriteRound(p, written, env, used, last);
        TurnedSplits(old(World()), env, 0, last.from, used);
        MovedSplits(|p|, env, 0, last.from, used);
        SetsRise(env, last.from, used);
        assert p[..before] + p[before..written] == p[..written];
        if !done { return written, None, false, used, resumes, last; }
        match verdict {
          case Again => resumes := resumes + 1;
          case Stop(e) => return written, e, true, used, resumes, last;
        }
      }
    }

    /** `Close`: only the taker of the handle does anything; it expires the deadline, which
        ends every armed context, before it finishes and frees the stream. */
    method Close(finish: Ending) returns (err: Option<GoErr>)
      requires Valid()
      modifies h, deadline`t, deadline.armed.Values, lib`terminals, lib`freed
      ensures Valid() && h.v == 0
      ensures old(h.v) == 0 ==>
        err == None && lib.terminals == old(lib.terminals) && lib.freed == old(lib.freed) && deadline.t == old(deadline.t)
      ensures old(h.v) != 0 ==>
        && err == finish.err && lib.terminals == old(lib.terminals) + Ind(finish.landed) && lib.freed
        && deadline.t == At(PAST)
        && forall id :: id in deadline.armed ==> deadline.armed[id].err.Some?
    {
      var id := h.Take();
      if id == 0 { return None; }
      deadline.Set(At(PAST));
      EndWith(finish);
      err := finish.err;
    }

    method Reset(reset: Ending) returns (err: Option<GoErr>)
      requires Valid()
      modifies h, lib`terminals, lib`freed
      ensures Valid() && h.v == 0
      ensures old(h.v) == 0 ==>
        err == None && lib.terminals == old(lib.terminals) && lib.freed == old(lib.freed)
      ensures old(h.v) != 0 ==>
        err == reset.err && lib.terminals == old(lib.terminals) + Ind(reset.landed) && lib.freed
    {
      var id := h.Take();
      if id == 0 { return None; }
      EndWith(reset);
      err := reset.err;
    }

    /** The terminal operation, and the free deferred behind it. */
    method EndWith(e: Ending)
      modifies lib`terminals, lib`freed
      ensures lib.terminals == old(lib.terminals) + Ind(e.landed) && lib.freed
    {
      if e.landed { lib.terminals := lib.terminals + 1; }
      lib.freed := true;
    }
  }
}
