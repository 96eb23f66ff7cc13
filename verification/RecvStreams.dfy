/** RecvStream as the object the Go code mutates, one call at a time, with everything that
    may happen around the call given as a list of events. */
module RecvStreams {
  import opened Common
  import opened OpTypes
  import opened StreamHalf
  import opened Deadlines
  import opened StreamEvents

  /** The library's receive stream: what the peer sent, and how much has been given up. */
  class LibRecv {
    const source: seq<byte>
    var pos: nat
    var terminals: nat
    var freed: bool

    constructor (source: seq<byte>)
      ensures this.source == source && pos == 0 && terminals == 0 && !freed
    {
      this.source := source;
      pos, terminals, freed := 0, 0, false;
    }
  }

  class RecvStream {
    const h: HandleCell
    const deadline: DeadlineCell
    const lib: LibRecv
    const clock: Clock

    constructor (h: nat, lib: LibRecv, clock: Clock)
      requires lib.terminals == 0 && lib.pos <= |lib.source|
      ensures Valid() && fresh(this.h) && fresh(deadline) && this.lib == lib && this.clock == clock
      ensures this.h.v == h && deadline.t == Never && deadline.armed == map[]
    {
      this.h := new HandleCell(h);
      deadline := new DeadlineCell();
      this.lib := lib;
      this.clock := clock;
    }

    ghost predicate Valid()
      reads h, deadline, lib
    {
      && deadline.Valid()
      && lib.pos <= |lib.source|
      && lib.terminals + Ind(h.v != 0) <= 1
    }

    /** What the half is in, for a call on it. */
    ghost function World(): (w: StreamEvents.World)
      reads h, deadline, clock
    {
      StreamEvents.World(deadline.t, clock.now, h.v)
    }

    /** How many bytes a landing of `k` gives a buffer of length `len` from position `pos`: the
        least of what is ready, what fits and what is left. */
    function Offered(k: nat, len: nat, pos: nat): (n: nat)
      requires pos <= |lib.source|
      ensures n <= k && n <= len && pos + n <= |lib.source|
      ensures n == k || n == len || pos + n == |lib.source|
    {
      Min(Min(k, len), |lib.source| - pos)
    }

    /** The call ended on a landing that gave it these `n` bytes. */
    predicate Served(env: seq<Event>, used: nat, n: nat, len: nat, pos: nat)
      requires used <= |env| && pos <= |lib.source|
    {
      used > 0 && env[used - 1].Lands? && n == Offered(env[used - 1].k, len, pos)
    }

    /** The library gives up to `k` bytes, which are stored at the front of `p`. */
    method Give(p: array<byte>, k: nat) returns (n: nat)
      requires lib.pos <= |lib.source|
      modifies lib`pos, p
      ensures n == Offered(k, p.Length, old(lib.pos)) && lib.pos == old(lib.pos) + n
      ensures p[..] == lib.source[old(lib.pos)..lib.pos] + old(p[n..])
    {
      n := Offered(k, p.Length, lib.pos);
      forall i | 0 <= i < n { p[i] := lib.source[lib.pos + i]; }
      lib.pos := lib.pos + n;
    }

    /** One `ffi.RecvRead` into `p`: the bytes given up are the bytes stored; a failed or
        abandoned read gives up none; and all of it is as the first event that answers the
        operation says. */
    method RecvRead(ctx: Context, p: array<byte>, env: seq<Event>, start: nat, ghost r: Round)
        returns (n: nat, eof: bool, err: Option<GoErr>, done: bool, used: nat)
      requires Valid() && ctx in deadline.armed.Values && InRound(h, deadline, clock, ctx, env, r, start)
      modifies h, deadline`t, deadline.armed.Values, clock, lib`pos, p
      ensures Valid() && InRound(h, deadline, clock, ctx, env, r, used) && start <= used
      ensures if done then used > start else used == |env| && err.None?
      ensures Unanswered(env, r, start, if done then used - 1 else used, old(lib.pos) == |lib.source|)
      ensures NoLanding(env, start, if done then used - 1 else used)
      ensures eof <==> done && env[used - 1].LandsEof?
      ensures eof ==> err.None? && lib.pos == |lib.source|
      ensures done && !eof ==> Told(env, r, used, err, CTX_ERRS, CLOSED) && (env[used - 1].Lands? <==> err.None?)
      ensures n == if done && env[used - 1].Lands? then Offered(env[used - 1].k, p.Length, old(lib.pos)) else 0
      ensures lib.pos == old(lib.pos) + n
      ensures p[..] == lib.source[old(lib.pos)..lib.pos] + old(p[n..])
      ensures ErrFrom(ctx.err, err)
    {
      used, done := AwaitAnswer(h, deadline, clock, ctx, lib.pos == |lib.source|, env, start, r);
      n, eof, err := 0, done && env[used - 1].LandsEof?, None;
      if done {
        err := ErrOf(env[used - 1], ctx.err);
        if env[used - 1].Lands? { n := Give(p, env[used - 1].k); }
      }
    }

    method ReadContext(ctx: Context, p: array<byte>, env: seq<Event>, start: nat, ghost r: Round)
        returns (n: nat, err: Option<GoErr>, done: bool, used: nat)
      requires Valid() && ctx in deadline.armed.Values && InRound(h, deadline, clock, ctx, env, r, start)
      modifies h, deadline`t, deadline.armed.Values, clock, lib`pos, p
      ensures Valid() && InRound(h, deadline, clock, ctx, env, r, used) && start <= used
      ensures n <= p.Length && lib.pos == old(lib.pos) + n
      ensures p[..] == lib.source[old(lib.pos)..lib.pos] + old(p[n..])
      ensures err.Some? || !done ==> n == 0
      ensures done && err.None? && p.Length > 0 ==> Served(env, used, n, p.Length, old(lib.pos))
      ensures err == Some(EEof) ==> lib.pos == |lib.source|
      ensures !done ==> used == |env| && err.None?
      ensures Unanswered(env, r, start, if done && used > start then used - 1 else used, old(lib.pos) == |lib.source|)
      ensures NoLanding(env, start, if done && used > start then used - 1 else used)
      ensures done && used > start ==> Told(env, r, used, err, CTX_ERRS, CLOSED)
      ensures done && used == start ==> err == if old(h.v) == 0 then Some(CLOSED) else None
      ensures used == start && done <==> old(h.v) == 0 || p.Length == 0
      ensures ErrFrom(ctx.err, err)
    {
      var id := h.Get();
      if id.Err? { return 0, Some(EKind(id.error)), true, start; }
      if p.Length == 0 { return 0, None, true, start; }
      var eof;
      n, eof, err, done, used := RecvRead(ctx, p, env, start, r);
      if eof { err := Some(EEof); }
    }

    /** One round of `Read`: arm, read, release. */
    method ReadArmed(p: array<byte>, env: seq<Event>, start: nat, ghost r: Round)
        returns (n: nat, err: Option<GoErr>, done: bool, used: nat)
      requires Valid() && start <= |env| && r == Round(start, World())
      modifies h, deadline, deadline.armed.Values, clock, lib`pos, p
      ensures Valid() && start <= used <= |env| && World() == Turned(r.w, env, start, used)
      ensures n <= p.Length && lib.pos == old(lib.pos) + n
      ensures p[..] == lib.source[old(lib.pos)..lib.pos] + old(p[n..])
      ensures err.Some? || !done ==> n == 0
      ensures done && err.None? && p.Length > 0 ==> Served(env, used, n, p.Length, old(lib.pos))
      ensures err == Some(EEof) ==> lib.pos == |lib.source|
      ensures !done ==> used == |env| && err.None?
      ensures Timely(env, r, used, err)
      ensures var to := if done && used > start then used - 1 else used;
              Unanswered(env, r, start, to, old(lib.pos) == |lib.source|) && NoLanding(env, start, to)
      ensures done && used > start ==> Told(env, r, used, err, CTX_ERRS, CLOSED)
      ensures done && used == start ==> err == if r.w.handle == 0 then Some(CLOSED) else None
      ensures used == start && done <==> r.w.handle == 0 || p.Length == 0
      ensures done ==> deadline.armed == old(deadline.armed)
    {
      var ctx, id := deadline.Arm(clock.now);
      assert deadline.armed[id] == ctx;
      n, err, done, used := ReadContext(ctx, p, env, start, r);
      if done { deadline.Release(ctx, id); }
    }

    /** `Read`, until it returns or the events run out with the call still blocked; `last` is
        the round it was in then. It reports exactly the bytes the stream gave up, at the front
        of `p`, as many as the landing it ended on; with any error it consumed nothing; the end
        is reported only at the end. What it returns is what its last event says: the library's
        own failure, the end, or a timeout if an abort met an ended context, and then the
        deadline the round began under has passed; with the handle gone it is closed, and never
        waits. No event that should have ended it is overlooked, every registration is gone
        again, and it went round once per deadline change at most. */
    method Read(p: array<byte>, env: seq<Event>)
        returns (n: nat, err: Option<GoErr>, done: bool, used: nat, ghost resumes: nat, ghost last: Round)
      requires Valid()
      modifies h, deadline, deadline.armed.Values, clock, lib`pos, p
      ensures Valid() && last.from <= used <= |env|
      ensures last.w == Turned(old(World()), env, 0, last.from) && World() == Turned(old(World()), env, 0, used)
      ensures n <= p.Length && lib.pos == old(lib.pos) + n
      ensures p[..] == lib.source[old(lib.pos)..lib.pos] + old(p[n..])
      ensures err.Some? || !done ==> n == 0
      ensures done && err.None? && p.Length > 0 ==> Served(env, used, n, p.Length, old(lib.pos))
      ensures err == Some(EEof) ==> lib.pos == |lib.source|
      ensures !done ==> used == |env| && err.None?
      ensures done && used > last.from ==> Told(env, last, used, err, {EOsDeadline}, CLOSED)
      ensures done && used == last.from ==> err == if last.w.handle == 0 then Some(CLOSED) else None
      ensures used == last.from && done <==> last.w.handle == 0 || p.Length == 0
      ensures err == Some(EOsDeadline) ==> last.w.dl.At? && last.w.dl.t <= clock.now
      ensures var to := if done && used > last.from then used - 1 else used;
              Unanswered(env, last, last.from, to, old(lib.pos) == |lib.source|) && NoLanding(env, last.from, to)
      ensures resumes <= Sets(env, used)
      ensures done ==> deadline.armed == old(deadline.armed)
    {
      used, resumes := 0, 0;
      while true
        invariant Valid() && used <= |env| && World() == Turned(old(World()), env, 0, used)
        invariant lib.pos == old(lib.pos) && p[..] == old(p[..])
        invariant resumes <= Sets(env, used)
        invariant deadline.armed == old(deadline.armed)
        decreases |env| - used
      {
        last := Round(used, World());
        n, err, done, used := ReadArmed(p, env, used, last);
        TurnedSplits(old(World()), env, 0, last.from, used);
        SetsRise(env, last.from, used);
        if !done { return; }
        Verdict(RecvHalf, p.Length, n, err, env, last, used);
        match Decide(RecvHalf, p.Length, n, err) {
          case Again => resumes := resumes + 1;
          case Stop(e) => return n, e, true, used, resumes, last;
        }
      }
    }

    method Stop(stop: Ending) returns (err: Option<GoErr>)
      requires Valid()
      modifies h, lib`terminals, lib`freed
      ensures Valid() && h.v == 0
      ensures old(h.v) == 0 ==>
        err == None && lib.terminals == old(lib.terminals) && lib.freed == old(lib.freed)
      ensures old(h.v) != 0 ==>
        err == stop.err && lib.terminals == old(lib.terminals) + Ind(stop.landed) && lib.freed
    {
      var id := h.Take();
      if id == 0 { return None; }
      if stop.landed { lib.terminals := lib.terminals + 1; }
      lib.freed := true;
      err := stop.err;
    }

    /** `Close`: expires the deadline, whoever takes the handle, and then stops the stream. */
    method Close(stop: Ending) returns (err: Option<GoErr>)
      requires Valid()
      modifies h, deadline`t, deadline.armed.Values, lib`terminals, lib`freed
      ensures Valid() && h.v == 0 && deadline.t == At(PAST)
      ensures forall id :: id in deadline.armed ==> deadline.armed[id].err.Some?
      ensures old(h.v) == 0 ==>
        err == None && lib.terminals == old(lib.terminals) && lib.freed == old(lib.freed)
      ensures old(h.v) != 0 ==>
        err == stop.err && lib.terminals == old(lib.terminals) + Ind(stop.landed) && lib.freed
    {
      deadline.Set(At(PAST));
      err := Stop(stop);
    }
  }
}
