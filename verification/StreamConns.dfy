/** StreamConn: a stream's two halves presented as one net.Conn. */
module StreamConns {
  import opened Common
  import opened OpTypes
  import opened StreamHalf
  import opened Deadlines
  import opened StreamEvents
  import opened SendStreams
  import opened RecvStreams

  /** `errors.Join`: the errors that are not nil, in order; neither is lost. */
  function Join(a: Option<GoErr>, b: Option<GoErr>): (es: seq<GoErr>)
    ensures |es| == Ind(a.Some?) + Ind(b.Some?)
    ensures a.Some? ==> es[0] == a.value
    ensures b.Some? ==> es[|es| - 1] == b.value
  {
    (if a.Some? then [a.value] else []) + (if b.Some? then [b.value] else [])
  }

  class StreamConn {
    const send: SendStream
    const recv: RecvStream
    var once: bool            // closeOnce has run
    var closed: bool          // the channel `closed` is closed
    var closeErr: seq<GoErr>

    constructor (send: SendStream, recv: RecvStream)
      requires send.Valid() && recv.Valid() && send.h != recv.h && send.deadline != recv.deadline
      requires send.deadline.armed == map[] && recv.deadline.armed == map[]
      ensures Valid() && this.send == send && this.recv == recv && !once && closeErr == []
    {
      this.send := send;
      this.recv := recv;
      once, closed, closeErr := false, false, [];
    }

    /** The halves are sound and share nothing. */
    ghost predicate HalvesValid()
      reads this, send.h, send.deadline, send.lib, recv.h, recv.deadline, recv.lib
    {
      && send.Valid() && recv.Valid()
      && send.h != recv.h && send.deadline != recv.deadline
      && send.deadline.armed.Values !! recv.deadline.armed.Values
    }

    ghost predicate Valid()
      reads this, send.h, send.deadline, send.lib, recv.h, recv.deadline, recv.lib
    {
      && HalvesValid()
      && once == closed
      && (once ==> send.h.v == 0 && recv.h.v == 0)
    }

    /** How often the two halves have been ended. */
    function Terminals(): (nat, nat)
      reads send.lib, recv.lib
    {
      (send.lib.terminals, recv.lib.terminals)
    }

    /** What ending a half with this outcome leaves: freed, and ended once more if the
        handle was still there and the operation landed. */
    twostate predicate SendEnded(e: Ending)
      reads send.h, send.lib
    {
      && send.h.v == 0
      && send.lib.terminals == old(send.lib.terminals) + (if old(send.h.v) != 0 then Ind(e.landed) else 0)
      && (old(send.h.v) != 0 ==> send.lib.freed)
    }

    twostate predicate RecvEnded(e: Ending)
      reads recv.h, recv.lib
    {
      && recv.h.v == 0
      && recv.lib.terminals == old(recv.lib.terminals) + (if old(recv.h.v) != 0 then Ind(e.landed) else 0)
      && (old(recv.h.v) != 0 ==> recv.lib.freed)
    }

    method CloseHalves(stop: Ending, finish: Ending) returns (err: seq<GoErr>)
      requires HalvesValid()
      modifies send.h, recv.h, send.deadline`t, recv.deadline`t
      modifies send.deadline.armed.Values, recv.deadline.armed.Values
      modifies send.lib`terminals, send.lib`freed, recv.lib`terminals, recv.lib`freed
      ensures HalvesValid() && SendEnded(finish) && RecvEnded(stop)
      ensures err == Join(if old(recv.h.v) != 0 then stop.err else None, if old(send.h.v) != 0 then finish.err else None)
      ensures recv.deadline.t == At(PAST) && (old(send.h.v) != 0 ==> send.deadline.t == At(PAST))
    {
      var r := recv.Close(stop);
      var s := send.Close(finish);
      err := Join(r, s);
    }

    /** `Close`: the first Close or Reset ends both halves; every other one changes nothing
        and returns the first one's error. */
    method Close(stop: Ending, finish: Ending) returns (err: seq<GoErr>)
      requires Valid()
      modifies this, send.h, recv.h, send.deadline`t, recv.deadline`t
      modifies send.deadline.armed.Values, recv.deadline.armed.Values
      modifies send.lib`terminals, send.lib`freed, recv.lib`terminals, recv.lib`freed
      ensures Valid() && once && err == closeErr
      ensures old(once) ==> closeErr == old(closeErr) && Terminals() == old(Terminals())
      ensures !old(once) ==>
        && closeErr == Join(if old(recv.h.v) != 0 then stop.err else None, if old(send.h.v) != 0 then finish.err else None)
        && SendEnded(finish) && RecvEnded(stop)
        && recv.deadline.t == At(PAST) && (old(send.h.v) != 0 ==> send.deadline.t == At(PAST))
    {
      if !once {
        once, closed := true, true;
        closeErr := CloseHalves(stop, finish);
      }
      err := closeErr;
    }

    method ResetHalves(stop: Ending, reset: Ending) returns (err: seq<GoErr>)
      requires HalvesValid()
      modifies send.h, recv.h, send.deadline`t, recv.deadline`t
      modifies send.deadline.armed.Values, recv.deadline.armed.Values
      modifies send.lib`terminals, send.lib`freed, recv.lib`terminals, recv.lib`freed
      ensures HalvesValid() && SendEnded(reset) && RecvEnded(stop)
      ensures err == Join(if old(recv.h.v) != 0 then stop.err else None, if old(send.h.v) != 0 then reset.err else None)
      ensures recv.deadline.t == At(PAST) && send.deadline.t == At(PAST)
    {
      recv.deadline.Set(At(PAST));
      send.deadline.Set(At(PAST));
      assert HalvesValid() && recv.deadline.t == At(PAST) && send.deadline.t == At(PAST);
      var r := recv.Stop(stop);
      var s := send.Reset(reset);
      err := Join(r, s);
    }

    /** `Reset`: as Close, but it expires both deadlines first, whoever holds the handles. */
    method Reset(stop: Ending, reset: Ending) returns (err: seq<GoErr>)
      requires Valid()
      modifies this, send.h, recv.h, send.deadline`t, recv.deadline`t
      modifies send.deadline.armed.Values, recv.deadline.armed.Values
      modifies send.lib`terminals, send.lib`freed, recv.lib`terminals, recv.lib`freed
      ensures Valid() && once && err == closeErr
      ensures old(once) ==> closeErr == old(closeErr) && Terminals() == old(Terminals())
      ensures !old(once) ==>
        && closeErr == Join(if old(recv.h.v) != 0 then stop.err else None, if old(send.h.v) != 0 then reset.err else None)
        && SendEnded(reset) && RecvEnded(stop)
        && recv.deadline.t == At(PAST) && send.deadline.t == At(PAST)
    {
      if !once {
        once, closed := true, true;
        closeErr := ResetHalves(stop, reset);
      }
      err := closeErr;
    }

    method CloseWrite(finish: Ending) returns (err: Option<GoErr>)
      requires Valid()
      modifies send.h, send.deadline`t, send.deadline.armed.Values, send.lib`terminals, send.lib`freed
      ensures Valid() && SendEnded(finish) && once == old(once)
      ensures err == if old(send.h.v) != 0 then finish.err else None
      ensures old(send.h.v) != 0 ==> send.deadline.t == At(PAST)
      ensures recv.h.v == old(recv.h.v) && recv.lib.terminals == old(recv.lib.terminals)
    {
      err := send.Close(finish);
    }

    /** `Write`: as SendStream's, but on a closed connection a timeout, and a failure with the
        kind of a closed handle, read as net.ErrClosed, and nothing else does. `closing` says
        whether another goroutine's Close took effect meanwhile. */
    method Write(p: seq<byte>, env: seq<Event>, closing: bool)
        returns (n: nat, err: Option<GoErr>, done: bool, used: nat, ghost last: Round)
      requires Valid()
      modifies this, send.h, recv.h, send.deadline, send.deadline.armed.Values, send.clock, send.lib`log
      ensures last.from <= used <= |env| && last.w == Turned(old(send.World()), env, 0, last.from)
      ensures n == Moved(|p|, env, 0, used) && send.lib.log == old(send.lib.log) + p[..n]
      ensures if done then err.None? ==> n == |p| else used == |env| && err.None? && n < |p|
      ensures closed == (old(closed) || closing)
      ensures done && used > last.from ==>
        Told(env, last, used, err, if closed then {ENetClosed} else {EOsDeadline}, if closed then ENetClosed else CLOSED)
      ensures done && used == last.from ==>
        err == if last.w.handle != 0 then None else if closed then Some(ENetClosed) else Some(CLOSED)
      ensures used == last.from && done <==> last.w.handle == 0 || p == []
      ensures err == Some(EOsDeadline) ==> last.w.dl.At? && last.w.dl.t <= send.clock.now
    {
      ghost var resumes;
      n, err, done, used, resumes, last := send.Write(p, env);
      if closing {
        once, closed := true, true;
        send.h.v, recv.h.v := 0, 0;
      }
      err := CloseAware(closed, err);
    }

    /** `Read`, in the same way. */
    method Read(p: array<byte>, env: seq<Event>, closing: bool)
        returns (n: nat, err: Option<GoErr>, done: bool, used: nat, ghost last: Round)
      requires Valid()
      modifies this, send.h, recv.h, recv.deadline, recv.deadline.armed.Values, recv.clock, recv.lib`pos, p
      ensures last.from <= used <= |env| && last.w == Turned(old(recv.World()), env, 0, last.from)
      ensures n <= p.Length && recv.lib.pos == old(recv.lib.pos) + n <= |recv.lib.source|
      ensures p[..] == recv.lib.source[old(recv.lib.pos)..recv.lib.pos] + old(p[n..])
      ensures err.Some? || !done ==> n == 0
      ensures !done ==> used == |env| && err.None?
      ensures done && err.None? && p.Length > 0 ==> recv.Served(env, used, n, p.Length, old(recv.lib.pos))
      ensures err == Some(EEof) ==> recv.lib.pos == |recv.lib.source|
      ensures closed == (old(closed) || closing)
      ensures done && used > last.from ==>
        Told(env, last, used, err, if closed then {ENetClosed} else {EOsDeadline}, if closed then ENetClosed else CLOSED)
      ensures done && used == last.from ==>
        err == if last.w.handle != 0 then None else if closed then Some(ENetClosed) else Some(CLOSED)
      ensures used == last.from && done <==> last.w.handle == 0 || p.Length == 0
      ensures err == Some(EOsDeadline) ==> last.w.dl.At? && last.w.dl.t <= recv.clock.now
    {
      ghost var resumes;
      n, err, done, used, resumes, last := recv.Read(p, env);
      if closing {
        once, closed := true, true;
        send.h.v, recv.h.v := 0, 0;
      }
      err := CloseAware(closed, err);
    }
  }
}
