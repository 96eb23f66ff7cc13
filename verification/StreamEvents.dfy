/** What may happen around one blocking stream call. */
module StreamEvents {
  import opened Common
  import opened OpTypes
  import opened StreamHalf
  import opened Deadlines
  import HalfInvariant

  datatype Event =
    | OtherSet(dl: Deadline)            // another goroutine sets this half's deadline
    | OtherTake                         // another goroutine takes the handle
    | Passes(dt: nat)                   // time passes, and the context's timer with it
    | Lands(k: nat)                     // the library moves up to `k` bytes
    | LandsEof                          // the library finds the clean end of the stream
    | Fails(kind: ErrKind, late: bool)  // it fails; `late` if the caller had given up first
    | Stops                             // an abort reaches the operation before it lands

  /** How many of the first `n` events are deadline changes. */
  function Sets(env: seq<Event>, n: nat): nat
    requires n <= |env|
  {
    if n == 0 then 0 else Sets(env, n - 1) + Ind(env[n - 1].OtherSet?)
  }

  lemma {:induction false} SetsRise(env: seq<Event>, a: nat, b: nat)
    requires a <= b <= |env|
    ensures Sets(env, a) <= Sets(env, b)
  {
    if a < b { SetsRise(env, a, b - 1); }
  }

  /** What an event makes of the error of a context armed under this cell. */
  function Struck(dl: Deadline, err: Option<CtxErr>, now: nat, e: Event): Option<CtxErr> {
    if e.OtherSet? then EndErr(err, Canceled)
    else if e.Passes? && Expired(dl, now) then EndErr(err, DeadlineExceeded)
    else err
  }

  /** A context-taking call reports a context error only as its context has it, and never
      one of the errors only the outer calls make. */
  predicate ErrFrom(ctx: Option<CtxErr>, err: Option<GoErr>) {
    && HalfInvariant.PlainErr(err)
    && (err == Some(ECanceled) ==> ctx == Some(Canceled))
    && (err == Some(EDeadlineExceeded) ==> ctx == Some(DeadlineExceeded))
  }

  function Min(a: nat, b: nat): (m: nat)
    ensures m <= a && m <= b && (m == a || m == b)
  {
    if a < b then a else b
  }

  // ---- what surrounds a call -------------------------------------------------------------

  // The half's deadline, the time, and the id in its handle cell.
  datatype World = World(dl: Deadline, now: nat, handle: nat)

  function Turn(w: World, e: Event): World {
    match e
    case OtherSet(dl) => w.(dl := dl)
    case OtherTake => w.(handle := 0)
    case Passes(dt) => w.(now := w.now + dt)
    case _ => w
  }

  /** What events `from..to` make of it. */
  function Turned(w: World, env: seq<Event>, from: nat, to: nat): World
    requires from <= to <= |env|
  {
    if from == to then w else Turn(Turned(w, env, from, to - 1), env[to - 1])
  }

  lemma {:induction false} TurnedSplits(w: World, env: seq<Event>, a: nat, b: nat, c: nat)
    requires a <= b <= c <= |env|
    ensures Turned(w, env, a, c) == Turned(Turned(w, env, a, b), env, b, c)
  {
    if b < c { TurnedSplits(w, env, a, b, c - 1); }
  }

  // One turn of the loop of Read or Write: the event it begins at, and what it begins in.
  datatype Round = Round(from: nat, w: World)

  /** The context armed at the start of the round has not ended before event `k`: no deadline
      change since, and the deadline it was armed under, if any, still lies ahead. */
  predicate LiveAt(env: seq<Event>, r: Round, k: nat)
    requires r.from <= k <= |env|
  {
    && Sets(env, k) <= Sets(env, r.from)
    && !(r.w.dl.At? && r.w.dl.t <= Turned(r.w, env, r.from, k).now)
  }

  // ---- bytes -----------------------------------------------------------------------------

  /** How many of `asked` bytes the landings among events `from..to` move, each at most what
      is still asked for. */
  function Moved(asked: nat, env: seq<Event>, from: nat, to: nat): (m: nat)
    requires from <= to <= |env|
    ensures m <= asked
  {
    if from == to then 0
    else
      var m := Moved(asked, env, from, to - 1);
      if env[to - 1].Lands? then m + Min(env[to - 1].k, asked - m) else m
  }

  lemma {:induction false} MovedSplits(asked: nat, env: seq<Event>, a: nat, b: nat, c: nat)
    requires a <= b <= c <= |env|
    ensures var m := Moved(asked, env, a, b);
            Moved(asked, env, a, c) == m + Moved(asked - m, env, b, c)
  {
    if b < c { MovedSplits(asked, env, a, b, c - 1); }
  }

  /** All the library is ready to move in events `from..to`. */
  function Landings(env: seq<Event>, from: nat, to: nat): nat
    requires from <= to <= |env|
  {
    if from == to then 0
    else Landings(env, from, to - 1) + (if env[to - 1].Lands? then env[to - 1].k else 0)
  }

  /** However the landings are cut up, they move all of what is asked for or all of what they
      offer, whichever is less. */
  lemma {:induction false} MovedIsLeast(asked: nat, env: seq<Event>, from: nat, to: nat)
    requires from <= to <= |env|
    ensures Moved(asked, env, from, to) ==
            if Landings(env, from, to) < asked then Landings(env, from, to) else asked
  {
    if from < to { MovedIsLeast(asked, env, from, to - 1); }
  }

  // ---- answers ---------------------------------------------------------------------------

  /** The event answers an outstanding operation: it lands, finds the end of the stream where
      that is, fails, or is stopped because its context has ended. */
  predicate Answers(e: Event, atEnd: bool, ended: bool) {
    e.Lands? || (e.LandsEof? && atEnd) || e.Fails? || (e.Stops? && ended)
  }

  /** Among events `from..to` of the round there is no failure, no end of the stream where it
      ends, and no abort of an operation whose context has ended: nothing the call could
      overlook. */
  predicate Unanswered(env: seq<Event>, r: Round, from: nat, to: nat, atEnd: bool)
    requires r.from <= from <= to <= |env|
  {
    forall k :: from <= k < to ==>
      && !env[k].Fails?
      && (env[k].LandsEof? ==> !atEnd)
      && (env[k].Stops? ==> LiveAt(env, r, k))
  }

  predicate NoLanding(env: seq<Event>, from: nat, to: nat)
    requires from <= to <= |env|
  {
    forall k :: from <= k < to ==> !env[k].Lands?
  }

  lemma {:induction false} NothingMoved(asked: nat, env: seq<Event>, from: nat, to: nat)
    requires from <= to <= |env| && NoLanding(env, from, to)
    ensures Moved(asked, env, from, to) == 0
  {
    if from < to { NothingMoved(asked, env, from, to - 1); }
  }

  /** The error an operation ended by event `e` reports, given its context's error. */
  function ErrOf(e: Event, ctx: Option<CtxErr>): Option<GoErr> {
    match e
    case Fails(kind, late) => if late && ctx.Some? then Some(GoErrOf(ctx.value)) else Some(EKind(kind))
    case Stops => if ctx.Some? then Some(GoErrOf(ctx.value)) else None
    case _ => None
  }

  /** What a call whose last event was number `used - 1` returned, said of that event: the
      library's failure as it is, unless the caller had given up on an ended context; the
      clean end; and for an abort one of the errors `ends` an ended context can read as. A
      failure with the kind of a closed handle reads as `gone`. */
  predicate Told(env: seq<Event>, r: Round, used: nat, err: Option<GoErr>, ends: set<GoErr>, gone: GoErr)
    requires r.from < used <= |env|
  {
    match env[used - 1]
    case Lands(k) => err == None || (k == 0 && err == Some(EKind(ErrKind.Stream)))
    case LandsEof => err == Some(EEof)
    case Fails(k, late) =>
      if late && !LiveAt(env, r, used - 1) then err.Some? && err.value in ends
      else err == Some(if k == ErrKind.Closed then gone else EKind(k))
    case Stops => !LiveAt(env, r, used - 1) && err.Some? && err.value in ends
    case _ => false
  }

  const CTX_ERRS: set<GoErr> := {ECanceled, EDeadlineExceeded}
  const CLOSED: GoErr := EKind(ErrKind.Closed)

  /** One armed attempt is over: an end by a deadline change saw one, and one by a timeout
      came no earlier than the deadline it was armed under. */
  predicate Timely(env: seq<Event>, r: Round, used: nat, err: Option<GoErr>)
    requires r.from <= used <= |env|
  {
    && HalfInvariant.PlainErr(err)
    && (err == Some(ECanceled) ==> r.from < used && Sets(env, r.from) < Sets(env, used))
    && (err == Some(EDeadlineExceeded) ==> r.w.dl.At? && r.w.dl.t <= Turned(r.w, env, r.from, used).now)
  }

  /** What the loops of Read and Write make of the error of an attempt: a call that returns
      tells the same story with a timeout for the context's end. */
  lemma Verdict(half: Half, asked: nat, moved: nat, err: Option<GoErr>, env: seq<Event>, r: Round, used: nat)
    requires r.from <= used <= |env| && Timely(env, r, used, err)
    requires r.from < used ==> Told(env, r, used, err, CTX_ERRS, CLOSED)
    requires half.SendHalf? ==> err == Some(ECanceled) ==> moved < asked
    requires half.RecvHalf? ==> err.Some? ==> moved == 0
    ensures match Decide(half, asked, moved, err)
            case Again => err == Some(ECanceled)
            case Stop(e) =>
              && err != Some(ECanceled)
              && (r.from < used ==> Told(env, r, used, e, {EOsDeadline}, CLOSED))
              && (e == Some(EOsDeadline) ==> r.w.dl.At? && r.w.dl.t <= Turned(r.w, env, r.from, used).now)
              && (if err == Some(EDeadlineExceeded) then e == Some(EOsDeadline) else e == err)
  {
  }

  class Clock {
    var now: nat

    constructor (now: nat)
      ensures this.now == now
    {
      this.now := now;
    }
  }

  /** One event that is not an outcome, as it happens to a half and to the context `ctx`. */
  method Around(h: HandleCell, deadline: DeadlineCell, clock: Clock, ctx: Context, e: Event)
    requires deadline.Valid() && ctx in deadline.armed.Values
    modifies h, deadline`t, deadline.armed.Values, clock
    ensures deadline.Valid()
    ensures deadline.t == if e.OtherSet? then e.dl else old(deadline.t)
    ensures h.v == if e.OtherTake? then 0 else old(h.v)
    ensures clock.now == old(clock.now) + (if e.Passes? then e.dt else 0)
    ensures ctx.err == Struck(ctx.dl, old(ctx.err), clock.now, e)
  {
    match e
    case OtherSet(dl) => deadline.Set(dl);
    case OtherTake => h.v := 0;
    case Passes(dt) =>
      clock.now := clock.now + dt;
      if Expired(ctx.dl, clock.now) { ctx.End(DeadlineExceeded); }
    case _ =>
  }

  /** The call of round `r` has come as far as event `at`, in the world those events made,
      and its context has ended exactly when it should have. */
  ghost predicate InRound(h: HandleCell, deadline: DeadlineCell, clock: Clock, ctx: Context,
                          env: seq<Event>, r: Round, at: nat)
    reads h, deadline, clock, ctx
  {
    && r.from <= at <= |env|
    && World(deadline.t, clock.now, h.v) == Turned(r.w, env, r.from, at)
    && ctx.dl == r.w.dl
    && (ctx.err == None <==> LiveAt(env, r, at))
    && (ctx.err == Some(Canceled) ==> Sets(env, r.from) < Sets(env, at))
    && (ctx.err == Some(DeadlineExceeded) ==> ctx.dl.At? && ctx.dl.t <= clock.now)
  }

  /** An operation is outstanding: events happen until one answers it or none is left. */
  method AwaitAnswer(h: HandleCell, deadline: DeadlineCell, clock: Clock, ctx: Context, atEnd: bool,
                     env: seq<Event>, start: nat, ghost r: Round)
      returns (used: nat, done: bool)
    requires deadline.Valid() && ctx in deadline.armed.Values
    requires InRound(h, deadline, clock, ctx, env, r, start)
    modifies h, deadline`t, deadline.armed.Values, clock
    ensures deadline.Valid() && InRound(h, deadline, clock, ctx, env, r, used) && start <= used
    ensures h.v == 0 || h.v == old(h.v)
    ensures if done then used > start else used == |env|
    ensures var to := if done then used - 1 else used;
            Unanswered(env, r, start, to, atEnd) && NoLanding(env, start, to)
    ensures done ==> Answers(env[used - 1], atEnd, ctx.err.Some?) && (ctx.err == None <==> LiveAt(env, r, used - 1))
  {
    used := start;
    while used < |env|
      invariant deadline.Valid() && start <= used && InRound(h, deadline, clock, ctx, env, r, used)
      invariant h.v == 0 || h.v == old(h.v)
      invariant Unanswered(env, r, start, used, atEnd) && NoLanding(env, start, used)
    {
      SetsRise(env, r.from, used);
      var e := env[used];
      used := used + 1;
      if Answers(e, atEnd, ctx.err.Some?) { return used, true; }
      Around(h, deadline, clock, ctx, e);
    }
    return used, false;
  }

  // How a terminal operation ended: whether it reached the stream, and what it reported.
  datatype Ending = Ending(landed: bool, err: Option<GoErr>)
}
