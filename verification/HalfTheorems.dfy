/** What a stream half guarantees, over every run: for every interleaving of calls, deadline
    changes, timers, landings, cancellations and closes. */
module HalfTheorems {
  import opened Common
  import opened OpTypes
  import opened StreamHalf
  import opened HalfInvariant
  import opened HalfSteps

  /** The state a run reaches from the start. */
  function At0(half: Half, source: seq<byte>, run: seq<Step>): State
    requires Legal(Init(half, source), run)
  {
    Exec(Init(half, source), run)
  }

  lemma Reached(half: Half, source: seq<byte>, run: seq<Step>)
    requires Legal(Init(half, source), run)
    ensures Inv(At0(half, source, run))
    ensures At0(half, source, run).half == half && At0(half, source, run).source == source
  {
    InitInv(half, source);
    RunKeeps(Init(half, source), run);
    HalfFixed(Init(half, source), run);
  }

  lemma {:induction false} HalfFixed(s: State, run: seq<Step>)
    requires Legal(s, run)
    ensures Exec(s, run).half == s.half && Exec(s, run).source == s.source
    decreases |run|
  {
    if run != [] {
      StepFixed(s, run[0]);
      HalfFixed(Apply(s, run[0]), run[1..]);
    }
  }

  /** The direction and the peer's bytes never change, nor does the log but by a landing. */
  ghost predicate Fixed(s: State, s': State) {
    s'.half == s.half && s'.source == s.source && s'.log == s.log
  }

  lemma LandingFixed(s: State, step: Step)
    requires Enabled(s, step) && IsLanding(step)
    ensures var s' := Apply(s, step);
            s'.half == s.half && s'.source == s.source && (step.LandMove? || s'.log == s.log)
  {
    match step
    case LandMove(c, chunk) =>
    case LandEof(c) =>
    case LandFail(c, k) =>
    case LandStop(c) =>
    case LandGone(c) =>
  }

  lemma LandingLeaves(s: State, step: Step)
    requires Enabled(s, step) && IsLanding(step)
    ensures var s' := Apply(s, step);
            && s'.closers == s.closers && s'.connClosed == s.connClosed
            && s'.dl == s.dl && s'.now == s.now && s'.open == s.open
  {
    match step
    case LandMove(c, chunk) =>
    case LandEof(c) =>
    case LandFail(c, k) =>
    case LandStop(c) =>
    case LandGone(c) =>
  }

  /** Nothing but the calls, their contexts and the mutexes. */
  ghost predicate OnlyCalls(s: State, s': State) {
    s' == s.(callers := s'.callers, mu := s'.mu, mutex := s'.mutex,
             armed := s'.armed, nextReg := s'.nextReg, ctxs := s'.ctxs)
  }

  lemma ReturnOnly(s: State, c: nat, ret: Ret)
    requires ReturnEnabled(s, c, ret)
    ensures OnlyCalls(s, ReturnStep(s, c, ret)) && ReturnStep(s, c, ret).mutex == s.mutex
  {
  }

  lemma IssueOnly(s: State, c: nat)
    requires c in s.callers
    ensures OnlyCalls(s, IssueStep(s, c)) && IssueStep(s, c).mutex == s.mutex
  {
  }

  lemma GetHandleOnly(s: State, c: nat)
    requires c in s.callers
    ensures OnlyCalls(s, GetHandleStep(s, c)) && GetHandleStep(s, c).mutex == s.mutex
  {
  }

  lemma CallingOnly(s: State, step: Step)
    requires Enabled(s, step) && IsCalling(step)
    ensures OnlyCalls(s, Apply(s, step))
    ensures var m' := Apply(s, step).mutex; m' == s.mutex || (step.Enqueue? && m' == s.mutex + [ByCaller(step.c)])
  {
    if step.Return? { ReturnOnly(s, step.c, step.ret); }
    else if step.Issue? { IssueOnly(s, step.c); }
    else if step.GetHandle? { GetHandleOnly(s, step.c); }
  }

  lemma CallingFixed(s: State, step: Step)
    requires Enabled(s, step) && IsCalling(step)
    ensures Fixed(s, Apply(s, step))
  {
    CallingOnly(s, step);
  }

  /** One step of close number `x` leaves the calls, the log and the other closes alone. */
  lemma CloseStepOnly(s: State, x: nat)
    requires CloseEnabled(s, x)
    ensures var s' := CloseStepOf(s, x);
            && Fixed(s, s') && s'.callers == s.callers
            && (forall z :: z in s.closers && z != x ==> z in s'.closers && s'.closers[z] == s.closers[z])
            && (s'.mutex == s.mutex || s'.mutex == s.mutex + [ByCloser(x)])
  {
  }

  lemma ClosingFixed(s: State, step: Step)
    requires Enabled(s, step) && IsClosing(step)
    ensures Fixed(s, Apply(s, step)) && Apply(s, step).callers == s.callers
  {
    if step.CloseStep? { CloseStepOnly(s, step.x); }
  }

  lemma TimingFixed(s: State, step: Step)
    requires Enabled(s, step) && IsTiming(step)
    ensures Fixed(s, Apply(s, step)) && Apply(s, step).callers == s.callers
    ensures Apply(s, step).closers == s.closers && Apply(s, step).mutex == s.mutex
  {
  }

  lemma StepFixed(s: State, step: Step)
    requires Enabled(s, step)
    ensures var s' := Apply(s, step);
            s'.half == s.half && s'.source == s.source && (step.LandMove? || s'.log == s.log)
  {
    if IsLanding(step) { LandingFixed(s, step); }
    else if IsClosing(step) { ClosingFixed(s, step); }
    else if IsTiming(step) { TimingFixed(s, step); }
    else { CallingFixed(s, step); }
  }

  // ---- no byte lost, repeated or reordered -------------------------------------------

  /** Write conservation: at every moment the stream has accepted from this call exactly a
      prefix of its argument, the part already reported plus what the operation in flight
      has moved. When the call returns, what it reports is what was accepted, and no error
      means all of it. */
  lemma {:induction false} WriteConserves(run: seq<Step>, c: nat)
    requires Legal(Init(SendHalf, []), run) && c in At0(SendHalf, [], run).callers
    ensures var s := At0(SendHalf, [], run);
            var y := s.callers[c];
            && Of(s.log, c) == y.moved + Inflight(y)
            && Of(s.log, c) <= y.p
            && (y.pc.Returned? ==> Of(s.log, c) == y.moved && (y.pc.ret == None ==> y.moved == y.p))
  {
    Reached(SendHalf, [], run);
    Known(At0(SendHalf, [], run), c);
    var y := At0(SendHalf, [], run).callers[c];
    assert y.moved + [] == y.moved;
  }

  /** With one writer at a time this is the whole stream: calls do not mix. */
  lemma {:induction false} SoleCallOwnsLog(log: seq<Chunk>, c: nat)
    requires forall i :: 0 <= i < |log| ==> log[i].call == c
    ensures Flatten(log) == Of(log, c)
  {
    if log != [] { SoleCallOwnsLog(log[..|log| - 1], c); }
  }

  /** A read that has given up bytes never goes round its loop again. */
  predicate PastReading(y: Caller) {
    || (y.op.Landed? && y.op.out.Ok?)
    || (y.pc.Leaving? && !ErrIsFromContext(y.pc.err))
    || y.pc.Returned?
  }

  ghost predicate ReadOnce(s: State) {
    && (forall i :: 0 <= i < |s.log| ==> s.log[i].call in s.callers && PastReading(s.callers[s.log[i].call]))
    && (forall i, j :: 0 <= i < j < |s.log| ==> s.log[i].call != s.log[j].call)
  }

  lemma LandingStays(s: State, step: Step, j: nat)
    requires Enabled(s, step) && IsLanding(step) && j in s.callers && PastReading(s.callers[j])
    requires ShapeInv(s.half, s.callers[j])
    ensures j in Apply(s, step).callers && PastReading(Apply(s, step).callers[j])
  {
    match step
    case LandMove(c, chunk) =>
    case LandEof(c) =>
    case LandFail(c, k) =>
    case LandStop(c) =>
    case LandGone(c) =>
  }

  lemma ReturnStays(s: State, c: nat, ret: Ret, j: nat)
    requires ReturnEnabled(s, c, ret) && j in s.callers && PastReading(s.callers[j])
    requires s.half.RecvHalf? && ShapeInv(s.half, s.callers[j])
    ensures j in ReturnStep(s, c, ret).callers && PastReading(ReturnStep(s, c, ret).callers[j])
  {
    assert j == c ==> ret.Value?;
  }

  lemma ReleaseStays(s: State, c: nat, j: nat)
    requires ReleaseEnabled(s, c) && j in s.callers && PastReading(s.callers[j]) && ShapeInv(s.half, s.callers[j])
    ensures j in ReleaseStep(s, c).callers && PastReading(ReleaseStep(s, c).callers[j])
  {
    AfterReleaseShape(s, c);
  }

  lemma CallingStays(s: State, step: Step, j: nat)
    requires Enabled(s, step) && IsCalling(step) && !step.Return? && !step.Release?
    requires j in s.callers && PastReading(s.callers[j]) && ShapeInv(s.half, s.callers[j])
    ensures j in Apply(s, step).callers && PastReading(Apply(s, step).callers[j])
  {
    assert step.c != j;
    if step.GetHandle? { GetHandleTouches(s, step.c, j); }
  }

  lemma GetHandleTouches(s: State, c: nat, j: nat)
    requires c in s.callers && j in s.callers && j != c
    ensures j in GetHandleStep(s, c).callers && GetHandleStep(s, c).callers[j] == s.callers[j]
  {
  }

  lemma PastStays(s: State, step: Step, j: nat)
    requires Inv(s) && s.half.RecvHalf? && Enabled(s, step) && j in s.callers && PastReading(s.callers[j])
    ensures j in Apply(s, step).callers && PastReading(Apply(s, step).callers[j])
  {
    Known(s, j);
    if IsLanding(step) { LandingStays(s, step, j); }
    else if IsClosing(step) { ClosingFixed(s, step); }
    else if IsTiming(step) { TimingFixed(s, step); }
    else if step.Return? { ReturnStays(s, step.c, step.ret, j); }
    else if step.Release? { ReleaseStays(s, step.c, j); }
    else { CallingStays(s, step, j); }
  }

  lemma ReadOnceStep(s: State, step: Step)
    requires Inv(s) && s.half.RecvHalf? && ReadOnce(s) && Enabled(s, step)
    ensures ReadOnce(Apply(s, step))
  {
    var s' := Apply(s, step);
    forall i | 0 <= i < |s.log|
      ensures s.log[i].call in s'.callers && PastReading(s'.callers[s.log[i].call])
    {
      PastStays(s, step, s.log[i].call);
    }
    if step.LandMove? {
      assert s'.log == s.log + [Chunk(step.c, step.chunk)];
      Known(s, step.c);
    } else {
      StepFixed(s, step);
    }
  }

  lemma {:induction false} ReadOnceRun(s: State, run: seq<Step>)
    requires Inv(s) && s.half.RecvHalf? && ReadOnce(s) && Legal(s, run)
    ensures ReadOnce(Exec(s, run))
    decreases |run|
  {
    if run != [] {
      ReadOnceStep(s, run[0]);
      StepKeeps(s, run[0]);
      StepFixed(s, run[0]);
      ReadOnceRun(Apply(s, run[0]), run[1..]);
    }
  }

  lemma {:induction false} OfOne(log: seq<Chunk>, i: nat)
    requires i < |log| && forall j, k :: 0 <= j < k < |log| ==> log[j].call != log[k].call
    ensures Of(log, log[i].call) == log[i].data
  {
    var rest := log[..|log| - 1];
    if i == |log| - 1 {
      OfNobody(rest, log[i].call);
    } else {
      OfOne(rest, i);
      assert log[|log| - 1].call != log[i].call;
      assert rest[i] == log[i];
    }
  }

  /** Read conservation: what the stream gave up is a prefix of what the peer sent, each
      chunk of it went to a call of its own, and a call that has returned reported exactly
      its chunk. So the bytes consumed are, in order, the bytes the Reads returned. */
  lemma {:induction false} ReadConserves(source: seq<byte>, run: seq<Step>)
    requires Legal(Init(RecvHalf, source), run)
    ensures var s := At0(RecvHalf, source, run);
            && Flatten(s.log) <= source
            && (forall i, j :: 0 <= i < j < |s.log| ==> s.log[i].call != s.log[j].call)
            && (forall i :: 0 <= i < |s.log| ==>
                  var c := s.log[i].call;
                  c in s.callers && s.log[i].data == s.callers[c].moved + Inflight(s.callers[c])
                  && (s.callers[c].pc.Returned? ==> s.log[i].data == s.callers[c].moved))
  {
    var s := At0(RecvHalf, source, run);
    InitInv(RecvHalf, source);
    Reached(RecvHalf, source, run);
    ReadOnceRun(Init(RecvHalf, source), run);
    forall i | 0 <= i < |s.log|
      ensures var c := s.log[i].call;
              c in s.callers && s.log[i].data == s.callers[c].moved + Inflight(s.callers[c])
              && (s.callers[c].pc.Returned? ==> s.log[i].data == s.callers[c].moved)
    {
      var c := s.log[i].call;
      Known(s, c);
      OfOne(s.log, i);
      assert s.callers[c].moved + [] == s.callers[c].moved;
    }
  }

  /** A Read that times out consumed nothing, and neither half ever reports a bare context
      error. */
  lemma {:induction false} TimeoutConsumesNothing(half: Half, source: seq<byte>, run: seq<Step>, c: nat)
    requires Legal(Init(half, source), run) && c in At0(half, source, run).callers
    requires At0(half, source, run).callers[c].pc.Returned?
    ensures var s := At0(half, source, run);
            var e := s.callers[c].pc.ret;
            && e != Some(ECanceled) && e != Some(EDeadlineExceeded)
            && (half.RecvHalf? && e == Some(EOsDeadline) ==> Of(s.log, c) == [])
  {
    Reached(half, source, run);
    Known(At0(half, source, run), c);
  }

  // ---- deadlines reach every call ------------------------------------------------------

  /** No missed deadline: a registered call was armed under the current deadline, or its
      context is done, or a `set` still holds its cancel; and that is so for every single
      `set` since it was armed. Its timer is neither early nor late: it has timed out only if
      its deadline has passed, and once that has passed it has ended or the timer can fire. */
  lemma {:induction false} NoMissedDeadline(half: Half, source: seq<byte>, run: seq<Step>, r: nat)
    requires Legal(Init(half, source), run) && r in At0(half, source, run).armed
    ensures var s := At0(half, source, run);
            && r in s.ctxs
            && (s.ctxs[r].gen == |s.sets| ==> s.ctxs[r].dl == s.dl)
            && (forall k :: s.ctxs[r].gen <= k < |s.sets| ==>
                  r in s.sets[k].pending || s.ctxs[r].err.Some?)
            && (s.ctxs[r].err == Some(DeadlineExceeded) ==> s.ctxs[r].dl.At? && s.ctxs[r].dl.t <= s.now)
            && (s.ctxs[r].dl.At? && s.ctxs[r].dl.t <= s.now && s.ctxs[r].err.None? ==>
                  Enabled(s, Expire(r)) && Apply(s, Expire(r)).ctxs[r].err == Some(DeadlineExceeded))
  {
    var s := At0(half, source, run);
    Reached(half, source, run);
    assert CtxInv(s, r);
    forall k | s.ctxs[r].gen <= k < |s.sets| ensures r in s.sets[k].pending || s.ctxs[r].err.Some? {
      assert SeenBy(s, r, k);
    }
  }

  /** A call arms under the deadline in force, and its context has ended from the start
      exactly if that deadline has passed. */
  lemma ArmsUnderDeadline(s: State, c: nat)
    requires Enabled(s, Arm(c))
    ensures var s' := Apply(s, Arm(c));
            var r := s'.callers[c].reg;
            && r == s.nextReg && r in s'.armed && r in s'.ctxs
            && s'.ctxs[r].dl == s.dl && s'.ctxs[r].owner == c
            && s'.ctxs[r].err == (if s.dl.At? && s.dl.t <= s.now then Some(DeadlineExceeded) else None)
            && (forall q :: q in s.ctxs && q != r ==> q in s'.ctxs && s'.ctxs[q] == s.ctxs[q])
  {
  }

  /** The deadline in force is the one last set: by a caller of the deadline methods, or by a
      close, which sets one that has passed. */
  lemma OnlySetsMoveDeadline(s: State, step: Step)
    requires Enabled(s, step)
    ensures Apply(s, step).dl ==
            if step.SetDeadline? then step.dl
            else if step.CloseStep? && s.closers[step.x].pc.WantExpire? then At(1)
            else s.dl
  {
    if IsLanding(step) {
      LandingLeaves(s, step);
    } else if IsCalling(step) {
      CallingOnly(s, step);
    } else if step.CloseStep? {
      CloseStepMoves(s, step.x);
    }
  }

  lemma CloseStepMoves(s: State, x: nat)
    requires CloseEnabled(s, x)
    ensures CloseStepOf(s, x).dl == if s.closers[x].pc.WantExpire? then At(1) else s.dl
    ensures s.open || !CloseStepOf(s, x).open
  {
  }

  /** The `set` calls whose snapshot held a registration of call `c`. */
  ghost function SetsThatSaw(s: State, c: nat): set<nat> {
    set k | 0 <= k < |s.sets| && exists r :: r in s.sets[k].snapshot && r in s.ctxs && s.ctxs[r].owner == c
  }

  /** Bounded resume: a call goes round its loop at most once per `set` that saw it. */
  lemma {:induction false} ResumesAreBounded(half: Half, source: seq<byte>, run: seq<Step>, c: nat)
    requires Legal(Init(half, source), run) && c in At0(half, source, run).callers
    ensures var s := At0(half, source, run);
            s.callers[c].resumes <= |SetsThatSaw(s, c)| <= |s.sets|
  {
    var s := At0(half, source, run);
    Reached(half, source, run);
    Known(s, c);
    var y := s.callers[c];
    forall k | k in y.hits ensures k in SetsThatSaw(s, c) {
      assert Hit(s, c, y, k);
    }
    SubsetSize(y.hits, SetsThatSaw(s, c));
    UpToSize(|s.sets|);
    SubsetSize(SetsThatSaw(s, c), UpTo(|s.sets|));
  }

  lemma SubsetSize(a: set<nat>, b: set<nat>)
    requires a <= b
    ensures |a| <= |b|
  {
    assert b == a + (b - a);
  }

  function UpTo(n: nat): set<nat> {
    if n == 0 then {} else UpTo(n - 1) + {n - 1}
  }

  lemma {:induction false} UpToSize(n: nat)
    ensures |UpTo(n)| == n && forall k: nat :: k in UpTo(n) <==> k < n
  {
    if n > 0 { UpToSize(n - 1); }
  }

  /** Bounded work: a Write or Read issues at most one operation per byte it moves, one per
      round that is interrupted, and one more. */
  lemma {:induction false} OperationsAreBounded(half: Half, source: seq<byte>, run: seq<Step>, c: nat)
    requires Legal(Init(half, source), run) && c in At0(half, source, run).callers
    ensures var s := At0(half, source, run);
            var y := s.callers[c];
            && y.issued <= |y.moved| + y.resumes + 1
            && y.issued <= |y.p| + |SetsThatSaw(s, c)| + 1
  {
    var s := At0(half, source, run);
    Reached(half, source, run);
    ResumesAreBounded(half, source, run, c);
    Known(s, c);
    assert |s.callers[c].moved| <= |s.callers[c].moved + Inflight(s.callers[c])| <= |s.callers[c].p|;
  }

  // ---- closing -----------------------------------------------------------------------------

  /** At most one finish, reset or stop per half, however many closes race: only one takes
      the handle, and only it reaches the library. */
  lemma {:induction false} OneTerminalOperation(half: Half, source: seq<byte>, run: seq<Step>, x: nat, z: nat)
    requires Legal(Init(half, source), run)
    requires var s := At0(half, source, run);
             && x in s.closers && z in s.closers
             && (s.closers[x].won || s.closers[x].pc.CloseIssued? || s.closers[x].pc.CloseQueued?)
             && (s.closers[z].won || s.closers[z].pc.CloseIssued? || s.closers[z].pc.CloseQueued?)
    ensures x == z && At0(half, source, run).terminals <= 1
  {
    var s := At0(half, source, run);
    Reached(half, source, run);
    assert CloserInv(s, x, s.closers[x]) && CloserInv(s, z, s.closers[z]);
    assert OneWinner(s, x, z);
  }

  /** The closes whose own `set` reaches every call in flight: those that take the handle
      before they expire the deadline, and those that expire it first with no `set` to a live
      deadline in between. */
  predicate Safe(y: Closer) {
    y.order.TakeThenExpire? || (y.order.ExpireThenTake? && y.clean)
  }

  /** Once a safe close has issued its operation, every call that has the handle has a
      finished context, so nothing with a live one can be, or get, ahead of it. */
  lemma HandleHoldersAreDone(s: State, x: nat, c: nat)
    requires Inv(s) && x in s.closers && Safe(s.closers[x])
    requires s.closers[x].pc.CloseIssued? || s.closers[x].pc.CloseQueued?
    requires c in s.callers && HasOpenedHandle(s.callers[c].pc)
    ensures s.callers[c].reg in s.ctxs && s.ctxs[s.callers[c].reg].err.Some?
  {
    Known(s, c);
    assert CloserInv(s, x, s.closers[x]) && Covered(s, c, x);
    assert SeenBy(s, s.callers[c].reg, s.closers[x].setId.value);
  }

  /** How many users of the stream's mutex wait in front of `u`. */
  function Ahead(m: seq<User>, u: User): nat {
    if m == [] || m[0] == u then 0 else 1 + Ahead(m[1..], u)
  }

  lemma {:induction false} AheadWithout(m: seq<User>, u: User, v: User)
    requires u != v && u in m
    ensures u in Without(m, v) && Ahead(Without(m, v), u) <= Ahead(m, u)
    ensures m[0] == v ==> Ahead(Without(m, v), u) < Ahead(m, u)
  {
    if m[0] != u && m[0] != v {
      assert u in m[1..];
      AheadWithout(m[1..], u, v);
      var w := Without(m[1..], v);
      assert ([m[0]] + w)[1..] == w;
    } else if m[0] == u {
      assert Without(m, v)[0] == u;
    }
  }

  lemma {:induction false} AheadAppend(m: seq<User>, u: User, v: User)
    requires u in m
    ensures u in m + [v] && Ahead(m + [v], u) == Ahead(m, u)
  {
    if m[0] != u {
      assert (m + [v])[1..] == m[1..] + [v];
      AheadAppend(m[1..], u, v);
    }
  }

  /** Whatever heads the queue in front of a safe close can be stopped. */
  lemma HeadCanGo(s: State, x: nat)
    requires Inv(s) && x in s.closers && Safe(s.closers[x]) && s.closers[x].pc.CloseQueued?
    ensures s.mutex != [] && ByCloser(x) in s.mutex
    ensures if s.mutex[0] == ByCloser(x) then Enabled(s, CloseLand(x))
            else
              && s.mutex[0].ByCaller?
              && Enabled(s, LandStop(s.mutex[0].c))
              && var m' := Apply(s, LandStop(s.mutex[0].c)).mutex;
                 ByCloser(x) in m' && Ahead(m', ByCloser(x)) < Ahead(s.mutex, ByCloser(x))
  {
    assert CloserInv(s, x, s.closers[x]);
    assert ByCloser(x) in s.mutex;
    assert UserInv(s, s.mutex[0]);
    OnlyCloserQueued(s, x);
    if s.mutex[0].ByCaller? {
      var c := s.mutex[0].c;
      Known(s, c);
      HandleHoldersAreDone(s, x, c);
      AheadWithout(s.mutex, ByCloser(x), ByCaller(c));
    }
  }

  /** Close is never stuck: behind a safe close's queued operation there may be anything,
      but whatever heads the queue in front of it is a call whose context is done, so the
      library may stop it, and that brings the close strictly nearer. At the head the
      operation itself may run. */
  lemma {:induction false} CloseMakesProgress(half: Half, source: seq<byte>, run: seq<Step>, x: nat)
    requires Legal(Init(half, source), run)
    requires var s := At0(half, source, run);
             x in s.closers && Safe(s.closers[x]) && s.closers[x].pc.CloseQueued?
    ensures var s := At0(half, source, run);
            && s.mutex != []
            && if s.mutex[0] == ByCloser(x) then Enabled(s, CloseLand(x))
               else
                 && s.mutex[0].ByCaller?
                 && Enabled(s, LandStop(s.mutex[0].c))
                 && var m' := Apply(s, LandStop(s.mutex[0].c)).mutex;
                    ByCloser(x) in m' && Ahead(m', ByCloser(x)) < Ahead(s.mutex, ByCloser(x))
  {
    Reached(half, source, run);
    HeadCanGo(At0(half, source, run), x);
  }

  lemma OnlyCloserQueued(s: State, x: nat)
    requires Inv(s) && x in s.closers && s.closers[x].won
    ensures forall z :: z in s.closers && ByCloser(z) in s.mutex ==> z == x
  {
    forall z | z in s.closers && ByCloser(z) in s.mutex ensures z == x {
      assert CloserInv(s, z, s.closers[z]) && OneWinner(s, x, z);
    }
  }

  /** And no step of anyone else moves it back. */
  lemma {:induction false} CloseNeverMovesBack(s: State, step: Step, x: nat)
    requires Inv(s) && Enabled(s, step) && x in s.closers && s.closers[x].pc.CloseQueued?
    requires step != CloseLand(x) && step != CloseAbandon(x)
    ensures var s' := Apply(s, step);
            && x in s'.closers && s'.closers[x] == s.closers[x]
            && ByCloser(x) in s'.mutex && Ahead(s'.mutex, ByCloser(x)) <= Ahead(s.mutex, ByCloser(x))
  {
    assert CloserInv(s, x, s.closers[x]);
    if IsLanding(step) {
      LandingAhead(s, step, x);
    } else if IsTiming(step) {
      TimingFixed(s, step);
    } else if IsClosing(step) {
      ClosingAhead(s, step, x);
    } else {
      CallingAhead(s, step, x);
    }
  }

  lemma LandingAhead(s: State, step: Step, x: nat)
    requires Enabled(s, step) && IsLanding(step) && ByCloser(x) in s.mutex
    ensures var s' := Apply(s, step);
            && s'.closers == s.closers && ByCloser(x) in s'.mutex
            && Ahead(s'.mutex, ByCloser(x)) <= Ahead(s.mutex, ByCloser(x))
  {
    AheadWithout(s.mutex, ByCloser(x), ByCaller(step.c));
  }

  lemma CallingAhead(s: State, step: Step, x: nat)
    requires Enabled(s, step) && IsCalling(step) && ByCloser(x) in s.mutex
    ensures var s' := Apply(s, step);
            && s'.closers == s.closers && ByCloser(x) in s'.mutex
            && Ahead(s'.mutex, ByCloser(x)) <= Ahead(s.mutex, ByCloser(x))
  {
    CallingOnly(s, step);
    if step.Enqueue? { AheadAppend(s.mutex, ByCloser(x), ByCaller(step.c)); }
  }

  lemma ClosingAhead(s: State, step: Step, x: nat)
    requires Enabled(s, step) && IsClosing(step) && ByCloser(x) in s.mutex
    requires x in s.closers && s.closers[x].pc.CloseQueued?
    requires step != CloseLand(x) && step != CloseAbandon(x)
    ensures var s' := Apply(s, step);
            && x in s'.closers && s'.closers[x] == s.closers[x] && ByCloser(x) in s'.mutex
            && Ahead(s'.mutex, ByCloser(x)) <= Ahead(s.mutex, ByCloser(x))
  {
    var u := ByCloser(x);
    if step.CloseStep? {
      CloseStepOnly(s, step.x);
      AheadAppend(s.mutex, u, ByCloser(step.x));
    } else if step.CloseLand? {
      assert s.mutex[0] == ByCloser(step.x) && s.mutex[0] != u;
    } else if step.CloseAbandon? {
      AheadWithout(s.mutex, u, ByCloser(step.x));
    }
  }

  /** The library serves the head of the queue: the operation of a call lands there. */
  predicate ServesHead(s: State, step: Step) {
    IsLanding(step) && AtHead(s, ByCaller(step.c))
  }

  lemma ServingMovesForward(s: State, step: Step, x: nat)
    requires Enabled(s, step) && ServesHead(s, step) && ByCloser(x) in s.mutex
    ensures Ahead(Apply(s, step).mutex, ByCloser(x)) < Ahead(s.mutex, ByCloser(x))
  {
    AheadWithout(s.mutex, ByCloser(x), ByCaller(step.c));
  }

  /** How many operations the library serves from the head of the queue during a run. */
  function Served(s: State, run: seq<Step>): nat
    requires Legal(s, run)
    decreases |run|
  {
    if run == [] then 0 else Ind(ServesHead(s, run[0])) + Served(Apply(s, run[0]), run[1..])
  }

  /** A queued close is served after at most as many operations as are ahead of it when it
      joins the queue, whatever calls start, deadlines change or closes are tried meanwhile. */
  lemma {:induction false} CloseIsServedInTurn(s: State, run: seq<Step>, x: nat)
    requires Inv(s) && Legal(s, run) && x in s.closers && s.closers[x].pc.CloseQueued?
    requires CloseLand(x) !in run && CloseAbandon(x) !in run
    ensures ByCloser(x) in Exec(s, run).mutex
    ensures Served(s, run) + Ahead(Exec(s, run).mutex, ByCloser(x)) <= Ahead(s.mutex, ByCloser(x))
    decreases |run|
  {
    assert CloserInv(s, x, s.closers[x]);
    if run != [] {
      assert run[0] in run;
      CloseNeverMovesBack(s, run[0], x);
      if ServesHead(s, run[0]) { ServingMovesForward(s, run[0], x); }
      StepKeeps(s, run[0]);
      CloseIsServedInTurn(Apply(s, run[0]), run[1..], x);
    }
  }

  /** A safe close needs nobody but the library: stopping what is ahead of it, one operation
      each, and then landing, is always possible. */
  lemma {:induction false} SafeCloseCanLand(s: State, x: nat) returns (run: seq<Step>)
    requires Inv(s) && x in s.closers && Safe(s.closers[x]) && s.closers[x].pc.CloseQueued?
    ensures Legal(s, run) && |run| <= Ahead(s.mutex, ByCloser(x)) + 1
    ensures forall k :: 0 <= k < |run| ==> run[k].LandStop? || run[k] == CloseLand(x)
    ensures var s' := Exec(s, run);
            x in s'.closers && s'.closers[x].pc.WantFree? && s'.terminals == 1
    decreases Ahead(s.mutex, ByCloser(x))
  {
    HeadCanGo(s, x);
    if s.mutex[0] == ByCloser(x) {
      run := [CloseLand(x)];
      assert CloserInv(s, x, s.closers[x]);
      assert run[1..] == [];
    } else {
      var step := LandStop(s.mutex[0].c);
      CloseNeverMovesBack(s, step, x);
      StepKeeps(s, step);
      var rest := SafeCloseCanLand(Apply(s, step), x);
      run := [step] + rest;
      assert run[1..] == rest;
    }
  }

  // ---- from the taken handle to the end of the stream ---------------------------------------

  /** A close that has the handle and whose terminal operation is still to come; the deadline
      in force when it took the handle had passed, or it sets such a one itself. */
  predicate OnItsWay(y: Closer) {
    && y.won && (y.sealed || y.order.TakeThenExpire?)
    && (y.pc.WantExpire? || y.pc.Cancelling? || y.pc.WantIssue? || y.pc.CloseIssued? || y.pc.CloseQueued?)
  }

  function PendingOf(s: State, y: Closer): set<nat> {
    if y.setId.Some? && y.setId.value < |s.sets| then s.sets[y.setId.value].pending else {}
  }

  /** The context of the call at the head of the queue has still to be ended. */
  predicate HeadLives(s: State) {
    && s.mutex != [] && s.mutex[0].ByCaller? && s.mutex[0].c in s.callers
    && s.callers[s.mutex[0].c].reg in s.ctxs && s.ctxs[s.callers[s.mutex[0].c].reg].err.None?
  }

  /** How many steps the close still needs at most. */
  function Todo(s: State, x: nat): nat
    requires x in s.closers
  {
    match s.closers[x].pc
    case WantExpire => |s.armed| + 2 * |s.mutex| + 6
    case Cancelling => |PendingOf(s, s.closers[x])| + 2 * |s.mutex| + 5
    case WantIssue => 2 * |s.mutex| + 4
    case CloseIssued => 2 * |s.mutex| + 3
    case CloseQueued => 2 * Ahead(s.mutex, ByCloser(x)) + Ind(HeadLives(s)) + 1
    case _ => 0
  }

  /** The steps that bring the close nearer: its own, the cancels `set` owes, a timer that is
      due, and the library stopping an operation whose context has ended. */
  predicate Helps(step: Step, x: nat) {
    step == CloseStep(x) || step == CloseLand(x) || step.SetCancel? || step.Expire? || step.LandStop?
  }

  /** One helpful step: it is enabled, keeps the close on its way or lands it, and leaves less
      to do. */
  ghost predicate Brings(s: State, step: Step, x: nat) {
    && Helps(step, x) && Enabled(s, step)
    && var s' := Apply(s, step);
       && x in s'.closers && Todo(s', x) < Todo(s, x)
       && (OnItsWay(s'.closers[x]) || (s'.closers[x].pc.WantFree? && s'.terminals == 1))
  }

  lemma {:induction false} AheadBound(m: seq<User>, u: User)
    ensures Ahead(m, u) <= |m| && Ahead(m + [u], u) <= |m|
  {
    if m != [] {
      AheadBound(m[1..], u);
      assert (m + [u])[1..] == m[1..] + [u];
    }
  }

  lemma OwnStepBrings(s: State, x: nat)
    requires Inv(s) && x in s.closers && OnItsWay(s.closers[x])
    requires CloseEnabled(s, x)
    ensures Brings(s, CloseStep(x), x)
  {
    assert CloserInv(s, x, s.closers[x]);
    AheadBound(s.mutex, ByCloser(x));
  }

  lemma OwnCancelBrings(s: State, x: nat, r: nat)
    requires Inv(s) && x in s.closers && OnItsWay(s.closers[x])
    requires s.closers[x].pc.Cancelling? && r in PendingOf(s, s.closers[x])
    ensures Brings(s, SetCancel(s.closers[x].setId.value, r), x)
  {
    assert SetInv(s, s.closers[x].setId.value);
  }

  /** The call at the head is doomed: one step ends its context if it has not ended. */
  lemma HeadEnds(s: State, x: nat) returns (step: Step)
    requires Inv(s) && x in s.closers && OnItsWay(s.closers[x]) && s.closers[x].pc.CloseQueued?
    requires HeadLives(s)
    ensures Brings(s, step, x)
  {
    assert CloserInv(s, x, s.closers[x]);
    var c := s.mutex[0].c;
    Known(s, c);
    assert Trapped(s, c, x);
    var r := s.callers[c].reg;
    if Expired(s.ctxs[r].dl, s.now) {
      step := Expire(r);
    } else {
      var k :| 0 <= k < |s.sets| && r in s.sets[k].pending;
      step := SetCancel(k, r);
    }
  }

  lemma HeadStops(s: State, x: nat)
    requires Inv(s) && x in s.closers && OnItsWay(s.closers[x]) && s.closers[x].pc.CloseQueued?
    requires s.mutex != [] && s.mutex[0].ByCaller? && !HeadLives(s)
    ensures Brings(s, LandStop(s.mutex[0].c), x)
  {
    assert CloserInv(s, x, s.closers[x]);
    var c := s.mutex[0].c;
    assert UserInv(s, s.mutex[0]);
    Known(s, c);
    assert Trapped(s, c, x);
    AheadWithout(s.mutex, ByCloser(x), ByCaller(c));
  }

  /** Whatever state a close on its way is in, some helpful step brings it nearer. */
  lemma SomethingBrings(s: State, x: nat) returns (step: Step)
    requires Inv(s) && x in s.closers && OnItsWay(s.closers[x])
    ensures Brings(s, step, x)
  {
    var y := s.closers[x];
    assert CloserInv(s, x, y);
    if y.pc.CloseQueued? {
      assert ByCloser(x) in s.mutex && UserInv(s, s.mutex[0]);
      OnlyCloserQueued(s, x);
      if s.mutex[0] == ByCloser(x) {
        step := CloseLand(x);
      } else if HeadLives(s) {
        step := HeadEnds(s, x);
      } else {
        step := LandStop(s.mutex[0].c);
        HeadStops(s, x);
      }
    } else if y.pc.Cancelling? && PendingOf(s, y) != {} {
      var r :| r in PendingOf(s, y);
      step := SetCancel(y.setId.value, r);
      OwnCancelBrings(s, x, r);
    } else {
      step := CloseStep(x);
      OwnStepBrings(s, x);
    }
  }

  /** From every state in which it has the handle, under a deadline that had passed or one it
      is about to expire, a close can finish by helpful steps alone: nobody else has to move,
      no peer has to answer, and the number of steps is bounded. */
  lemma {:induction false} TakenCloseCanLand(s: State, x: nat) returns (run: seq<Step>)
    requires Inv(s) && x in s.closers && OnItsWay(s.closers[x])
    ensures Legal(s, run) && |run| <= Todo(s, x)
    ensures forall k :: 0 <= k < |run| ==> Helps(run[k], x)
    ensures var s' := Exec(s, run);
            x in s'.closers && s'.closers[x].pc.WantFree? && s'.terminals == 1
    decreases Todo(s, x)
  {
    var step := SomethingBrings(s, x);
    var s' := Apply(s, step);
    StepKeeps(s, step);
    if OnItsWay(s'.closers[x]) {
      var rest := TakenCloseCanLand(s', x);
      run := [step] + rest;
      assert run[1..] == rest;
    } else {
      run := [step];
      assert run[1..] == [];
    }
  }

  // ---- what a call reports -----------------------------------------------------------------------

  /** What a call that is about to leave returns, whatever happened before. It goes round again
      exactly when a deadline change interrupted it. A timeout is reported only once the
      deadline of its round has passed. Through a closed connection a timeout and the kind of a
      closed handle read as net.ErrClosed, and nothing else does: every other failure, and the
      end of the stream, come through as they are. */
  lemma {:induction false} ReleaseReports(half: Half, source: seq<byte>, run: seq<Step>, c: nat)
    requires Legal(Init(half, source), run) && Enabled(At0(half, source, run), Release(c))
    ensures var s := At0(half, source, run);
            var y := s.callers[c];
            var pc' := Apply(s, Release(c)).callers[c].pc;
            var closed := y.viaConn && s.connClosed;
            match y.pc.err
            case None => pc' == Returned(None)
            case Some(ECanceled) => pc' == Arming && s.ctxs[y.reg].err == Some(Canceled)
            case Some(EDeadlineExceeded) =>
              && s.ctxs[y.reg].dl.At? && s.ctxs[y.reg].dl.t <= s.now
              && pc' == Returned(Some(if closed then ENetClosed else EOsDeadline))
            case Some(EEof) => pc' == Returned(Some(EEof))
            case Some(EKind(k)) => pc' == Returned(Some(if closed && k == ErrKind.Closed then ENetClosed else EKind(k)))
            case Some(_) => false
    ensures var s := At0(half, source, run);
            var r, s' := s.callers[c].reg, Apply(s, Release(c));
            r !in s'.armed && r in s'.ctxs && s'.ctxs[r].err.Some?
  {
    var s := At0(half, source, run);
    Reached(half, source, run);
    Known(s, c);
    assert CtxInv(s, s.callers[c].reg);
    assert ReleaseStep(s, c) == Apply(s, Release(c));
    ReleaseTells(s, c);
    VerdictReads(s.half, s.callers[c], s.connClosed);
  }

  /** The loop goes round only while nothing is lost by it: a Write with bytes left to write, a
      Read that has given up none. Otherwise what it was told is what it returns, but for the
      name of a timeout. */
  lemma GoesRoundIff(half: Half, asked: nat, done: nat, err: Option<GoErr>)
    ensures Decide(half, asked, done, err).Again? <==>
            err == Some(ECanceled) && (if half.SendHalf? then done < asked else done == 0)
    ensures Decide(half, asked, done, err).Stop? && err != Some(EDeadlineExceeded) ==>
            Decide(half, asked, done, err).ret == err
    ensures err == Some(EDeadlineExceeded) ==>
            Decide(half, asked, done, err) ==
            Stop(Some(if half.RecvHalf? && done > 0 then EDeadlineExceeded else EOsDeadline))
  {
  }

  lemma VerdictReads(half: Half, y: Caller, connClosed: bool)
    requires ShapeInv(half, y) && (half.SendHalf? ==> SendInv(y)) && y.pc.Leaving?
    ensures var d := Decide(half, |y.p|, |y.moved|, y.pc.err);
            if y.pc.err == Some(ECanceled) then d.Again?
            else
              && d.Stop?
              && var e := if y.viaConn then CloseAware(connClosed, d.ret) else d.ret;
                 var closed := y.viaConn && connClosed;
                 match y.pc.err
                 case None => e == None
                 case Some(EDeadlineExceeded) => e == Some(if closed then ENetClosed else EOsDeadline)
                 case Some(EKind(k)) => e == Some(if closed && k == ErrKind.Closed then ENetClosed else EKind(k))
                 case Some(_) => e == Some(EEof)
  {
  }

  lemma ReleaseTells(s: State, c: nat)
    requires ReleaseEnabled(s, c)
    ensures ReleaseStep(s, c).callers[c].pc ==
            match Decide(s.half, |s.callers[c].p|, |s.callers[c].moved|, s.callers[c].pc.err)
            case Again => Arming
            case Stop(e) => Returned(if s.callers[c].viaConn then CloseAware(s.connClosed, e) else e)
  {
  }

  /** What a call makes of what its operation returned: a failure is passed on with its kind,
      an abandoned operation is the context's error, and a value adds what it moved. */
  lemma ReturnReports(s: State, c: nat, ret: Ret)
    requires Enabled(s, Return(c, ret))
    ensures var y, y' := s.callers[c], Apply(s, Return(c, ret)).callers[c];
            match ret
            case Failed(k) => y'.pc == Leaving(Some(EKind(k))) && y'.moved == y.moved
            case CtxErr =>
              && y'.moved == y.moved
              && y'.pc == Leaving(Some(if s.ctxs[y.reg].err == Some(Canceled) then ECanceled else EDeadlineExceeded))
            case Value(v) =>
              && y'.moved == y.moved + y.op.chunk
              && y'.pc == (if s.half.RecvHalf? then (if v.Eof? then Leaving(Some(EEof)) else Leaving(None))
                           else if y.op.chunk == [] then Leaving(Some(EKind(ErrKind.Stream))) else Locked)
  {
    ReturnTells(s, c, ret);
  }

  lemma ReturnTells(s: State, c: nat, ret: Ret)
    requires ReturnEnabled(s, c, ret)
    ensures ReturnStep(s, c, ret).callers[c] == AfterReturn(s, c, ret)
  {
  }

  /** Once a close has taken the handle it stays gone, and every call that gets that far leaves
      with the kind of a closed handle; while it is there every call gets it, but for a Read
      into an empty buffer, which has nothing to do. */
  lemma {:induction false} ClosedStaysClosed(s: State, run: seq<Step>, c: nat)
    requires Legal(s, run) && Enabled(Exec(s, run), GetHandle(c))
    ensures var s' := Exec(s, run);
            var pc' := Apply(s', GetHandle(c)).callers[c].pc;
            && (!s.open ==> !s'.open && pc' == Leaving(Some(EKind(ErrKind.Closed))))
            && (s'.open && (s'.half.SendHalf? || s'.callers[c].p != []) ==> pc' == HasHandle)
            && (s'.open && s'.half.RecvHalf? && s'.callers[c].p == [] ==> pc' == Leaving(None))
    decreases |run|
  {
    if run == [] {
      GetHandleTells(s, c);
    } else {
      if !s.open { StaysTaken(s, run[0]); }
      ClosedStaysClosed(Apply(s, run[0]), run[1..], c);
    }
  }

  lemma GetHandleTells(s: State, c: nat)
    requires c in s.callers
    ensures GetHandleStep(s, c).callers[c].pc == AfterGet(s.half, s.open, |s.callers[c].p| == 0)
  {
  }

  lemma StaysTaken(s: State, step: Step)
    requires Enabled(s, step) && !s.open
    ensures !Apply(s, step).open
  {
    if IsLanding(step) {
      LandingLeaves(s, step);
    } else if IsCalling(step) {
      CallingOnly(s, step);
    } else if step.CloseStep? {
      CloseStepMoves(s, step.x);
    }
  }

  // ---- the end of the stream ---------------------------------------------------------------------

  /** The call has found the clean end, or says so. */
  predicate SawEnd(y: Caller) {
    (y.op.Landed? && y.op.out == Ok(Eof)) || y.pc == Leaving(Some(EEof)) || y.pc == Returned(Some(EEof))
  }

  ghost predicate EndInv(s: State) {
    forall c :: c in s.callers && SawEnd(s.callers[c]) ==> Flatten(s.log) == s.source
  }

  lemma CallingSeesNoEnd(s: State, step: Step, c: nat)
    requires Enabled(s, step) && IsCalling(step) && c in Apply(s, step).callers && SawEnd(Apply(s, step).callers[c])
    ensures c in s.callers && SawEnd(s.callers[c])
  {
    if step.Return? { ReturnTells(s, step.c, step.ret); }
    else if step.Release? { ReleaseTells(s, step.c); AfterReleaseShape(s, step.c); }
    else if step.Issue? { IssueTells(s, step.c); }
    else if step.GetHandle? { GetHandleTells(s, step.c); }
  }

  lemma IssueTells(s: State, c: nat)
    requires c in s.callers
    ensures var y' := IssueStep(s, c).callers[c]; (y'.pc.InOp? && y'.op.Issued?) || (y'.pc == Leaving(None) && y'.op.NoOp?)
  {
  }

  lemma EndStays(s: State, step: Step)
    requires Inv(s) && s.half.RecvHalf? && EndInv(s) && Enabled(s, step)
    ensures EndInv(Apply(s, step))
  {
    var s' := Apply(s, step);
    StepKeeps(s, step);
    StepFixed(s, step);
    if step.LandMove? {
      OfAppend(s.log, Chunk(step.c, step.chunk), step.c);
      assert s'.log == s.log + [Chunk(step.c, step.chunk)];
      assert Flatten(s.log) == s.source ==> step.chunk == [];
    }
    forall c | c in s'.callers && SawEnd(s'.callers[c]) ensures Flatten(s'.log) == s'.source {
      if IsCalling(step) { CallingSeesNoEnd(s, step, c); }
      else if IsLanding(step) { LandingSeesEnd(s, step, c); }
      else if IsClosing(step) { ClosingFixed(s, step); }
      else { TimingFixed(s, step); }
    }
  }

  lemma LandingSeesEnd(s: State, step: Step, c: nat)
    requires Enabled(s, step) && IsLanding(step) && c in Apply(s, step).callers && SawEnd(Apply(s, step).callers[c])
    ensures (c in s.callers && SawEnd(s.callers[c])) || (step.LandEof? && Flatten(s.log) == s.source)
  {
    match step
    case LandMove(_, chunk) =>
    case LandEof(_) =>
    case LandFail(_, k) =>
    case LandStop(_) =>
    case LandGone(_) =>
  }

  lemma {:induction false} EndRun(s: State, run: seq<Step>)
    requires Inv(s) && s.half.RecvHalf? && EndInv(s) && Legal(s, run)
    ensures EndInv(Exec(s, run))
    decreases |run|
  {
    if run != [] {
      EndStays(s, run[0]);
      StepKeeps(s, run[0]);
      StepFixed(s, run[0]);
      EndRun(Apply(s, run[0]), run[1..]);
    }
  }

  /** No early end: a Read reports the end of the stream only once everything the peer sent
      has been read. */
  lemma {:induction false} EndIsTheEnd(source: seq<byte>, run: seq<Step>, c: nat)
    requires Legal(Init(RecvHalf, source), run) && c in At0(RecvHalf, source, run).callers
    requires At0(RecvHalf, source, run).callers[c].pc == Returned(Some(EEof))
    ensures Flatten(At0(RecvHalf, source, run).log) == source
  {
    InitInv(RecvHalf, source);
    Reached(RecvHalf, source, run);
    EndRun(Init(RecvHalf, source), run);
  }

  // ---- what a close leaves -------------------------------------------------------------------------

  /** The close that took the handle frees it, as the last thing it does: not before its
      terminal operation has landed or been given up, and always after. */
  lemma {:induction false} WinnerFreesLast(half: Half, source: seq<byte>, run: seq<Step>, x: nat)
    requires Legal(Init(half, source), run)
    requires var s := At0(half, source, run); x in s.closers && s.closers[x].won
    ensures var s := At0(half, source, run);
            && !s.open
            && (s.freed <==> s.closers[x].pc.Over?)
            && (s.closers[x].pc.WantFree? ==>
                  Enabled(s, CloseStep(x)) && Apply(s, CloseStep(x)).freed && Apply(s, CloseStep(x)).closers[x].pc.Over?)
  {
    var s := At0(half, source, run);
    Reached(half, source, run);
    assert CloserInv(s, x, s.closers[x]);
  }

  ghost predicate ClosedByConn(s: State) {
    s.connClosed ==> exists x :: x in s.closers && s.closers[x].conn
  }

  lemma ConnCloseStep(s: State, x: nat)
    requires CloseEnabled(s, x)
    ensures var s' := CloseStepOf(s, x);
            && (s'.connClosed ==> s.connClosed || s.closers[x].conn)
            && x in s'.closers && s'.closers[x].conn == s.closers[x].conn
  {
    if s.closers[x].pc.WantTake? {
      assert CloseStepOf(s, x) == TakeHandle(s, x);
    } else if s.closers[x].pc.WantExpire? {
      assert CloseStepOf(s, x) == ExpireDeadline(s, x);
    } else {
      assert CloseStepOf(s, x) == Advance(s, x);
    }
  }

  lemma ConnStep(s: State, step: Step)
    requires ClosedByConn(s) && Enabled(s, step)
    ensures ClosedByConn(Apply(s, step))
  {
    var s' := Apply(s, step);
    if IsLanding(step) { LandingLeaves(s, step); }
    else if IsCalling(step) { CallingOnly(s, step); }
    else if step.CloseStep? { CloseStepOnly(s, step.x); ConnCloseStep(s, step.x); }
    if s.connClosed {
      var x :| x in s.closers && s.closers[x].conn;
      assert x in s'.closers && s'.closers[x].conn;
    } else if s'.connClosed {
      assert s'.closers[step.x].conn;
    }
  }

  /** A connection counts as closed only if its own Close or Reset was called; ending one half
      on its own never does that. */
  lemma {:induction false} ConnClosedByItsClose(s: State, run: seq<Step>)
    requires ClosedByConn(s) && Legal(s, run)
    ensures Exec(s, run).connClosed ==> exists x :: x in Exec(s, run).closers && Exec(s, run).closers[x].conn
    decreases |run|
  {
    if run != [] {
      ConnStep(s, run[0]);
      ConnClosedByItsClose(Apply(s, run[0]), run[1..]);
    }
  }

  // ---- the timeout a close causes -------------------------------------------------------------

  /** The deadline a StreamConn close sets is never reported as a timeout: a call made
      through the connection that it ends returns net.ErrClosed. */
  lemma {:induction false} OwnTimeoutIsClosed(half: Half, source: seq<byte>, run: seq<Step>, c: nat)
    requires Legal(Init(half, source), run)
    requires var s := At0(half, source, run);
             && Enabled(s, Release(c)) && s.callers[c].viaConn
             && s.callers[c].pc.err == Some(EDeadlineExceeded)
             && s.ctxs[s.callers[c].reg].byConn
    ensures Apply(At0(half, source, run), Release(c)).callers[c].pc == Returned(Some(ENetClosed))
  {
    var s := At0(half, source, run);
    Reached(half, source, run);
    Known(s, c);
    assert CtxInv(s, s.callers[c].reg);
  }
}
