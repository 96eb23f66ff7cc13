/** Listener: the accept loop, one serve goroutine per connection, any number of Accept
    calls, Close, and an endpoint that may close at any time. */
module Listener {
  import opened Common
  import opened OpTypes

  datatype LErr = NetClosed | CtxEnded | Kind(k: ErrKind)

  datatype LoopPc = Calling | Deciding(e: LErr) | Failing(e: LErr) | Cancelling | Ended

  datatype ServePc = Authorizing | Accepting | Offering(stream: nat) | Closing(stream: nat) | Gone

  datatype AcceptPc = Selecting | Reading | Got(stream: nat) | Told(e: LErr)

  datatype State = State(
    loop: LoopPc,
    serves: map<nat, ServePc>,     // by connection
    refused: set<nat>,             // connections Authorize turned away
    origin: map<nat, nat>,         // every stream serve obtained, and its connection
    shut: set<nat>,                // streams serve closed
    accepts: map<nat, AcceptPc>,   // Accept calls
    receiver: map<nat, nat>,       // history: the Accept a stream was handed to
    ctxDone: bool,                 // l.ctx is cancelled
    endpointClosed: bool,
    closeCalled: bool,             // history: somebody called Listener.Close
    err: Option<LErr>)             // l.err

  datatype Step =
    | ConnArrives(c: nat) | AcceptFails(e: LErr) | LoopStep
    | Authorize(c: nat, ok: bool)
    | StreamArrives(c: nat, s: nat) | ServeEnds(c: nat)
    | Deliver(c: nat, a: nat) | GiveUp(c: nat) | ServeCloses(c: nat)
    | CallAccept(a: nat) | SeeDone(a: nat) | ReadErr(a: nat)
    | CloseListener | CloseEndpoint

  const START: State := State(Calling, map[], {}, map[], {}, map[], map[], false, false, false, None)

  predicate ServeIs(s: State, c: nat, p: ServePc) {
    c in s.serves && s.serves[c] == p
  }

  predicate Enabled(s: State, step: Step) {
    match step
    case ConnArrives(c) => s.loop.Calling? && c !in s.serves
    // The context's error only once it is done, a closed error only from a closed endpoint;
    // any other kind at any time, whatever a peer did.
    case AcceptFails(e) =>
      && s.loop.Calling? && !e.NetClosed?
      && (e.CtxEnded? ==> s.ctxDone) && (e == Kind(ErrKind.Closed) ==> s.endpointClosed)
    case LoopStep => !s.loop.Calling? && !s.loop.Ended?
    case Authorize(c, _) => ServeIs(s, c, Authorizing)
    case StreamArrives(c, x) => ServeIs(s, c, Accepting) && x !in s.origin
    case ServeEnds(c) => ServeIs(s, c, Accepting)
    case Deliver(c, a) => c in s.serves && s.serves[c].Offering? && a in s.accepts && s.accepts[a].Selecting?
    case GiveUp(c) => c in s.serves && s.serves[c].Offering? && s.ctxDone
    case ServeCloses(c) => c in s.serves && s.serves[c].Closing?
    case CallAccept(a) => a !in s.accepts
    case SeeDone(a) => a in s.accepts && s.accepts[a].Selecting? && s.ctxDone
    case ReadErr(a) => a in s.accepts && s.accepts[a].Reading?
    case CloseListener => true
    case CloseEndpoint => true
  }

  function NextLoop(s: State): LoopPc {
    match s.loop
    case Deciding(e) => if s.ctxDone || e == Kind(ErrKind.Closed) then Failing(e) else Calling
    case Failing(e) => Cancelling
    case Cancelling => Ended
    case _ => s.loop
  }

  /** `fail` under the error lock: the first error stays, and a closed listener reports the
      closing rather than what its accept made of it. */
  function Recording(err: Option<LErr>, ctxDone: bool, e: LErr): Option<LErr> {
    if err.Some? then err else Some(if ctxDone then NetClosed else e)
  }

  /** `accept` after an error, and `fail`, which ends by cancelling the listener's context. */
  function Loop(s: State): State {
    s.(loop := NextLoop(s), err := if s.loop.Failing? then Recording(s.err, s.ctxDone, s.loop.e) else s.err,
       ctxDone := s.ctxDone || s.loop.Cancelling?)
  }

  function Apply(s: State, step: Step): State
    requires Enabled(s, step)
  {
    match step
    case ConnArrives(c) => s.(serves := s.serves[c := Authorizing])
    case AcceptFails(e) => s.(loop := Deciding(e))
    case LoopStep => Loop(s)
    case Authorize(c, ok) =>
      s.(serves := s.serves[c := if ok then Accepting else Gone],
         refused := if ok then s.refused else s.refused + {c})
    case StreamArrives(c, x) =>
      s.(serves := s.serves[c := Offering(x)], origin := s.origin[x := c])
    case ServeEnds(c) => s.(serves := s.serves[c := Gone])
    case Deliver(c, a) =>
      var x := s.serves[c].stream;
      s.(serves := s.serves[c := Accepting], accepts := s.accepts[a := Got(x)],
         receiver := s.receiver[x := a])
    case GiveUp(c) => s.(serves := s.serves[c := Closing(s.serves[c].stream)])
    case ServeCloses(c) =>
      s.(serves := s.serves[c := Gone], shut := s.shut + {s.serves[c].stream})
    case CallAccept(a) => s.(accepts := s.accepts[a := Selecting])
    case SeeDone(a) => s.(accepts := s.accepts[a := Reading])
    case ReadErr(a) => s.(accepts := s.accepts[a := Told(s.err.GetOr(NetClosed))])
    case CloseListener => s.(ctxDone := true, closeCalled := true)
    case CloseEndpoint => s.(endpointClosed := true)
  }

  predicate Legal(s: State, run: seq<Step>)
    decreases |run|
  {
    run == [] || (Enabled(s, run[0]) && Legal(Apply(s, run[0]), run[1..]))
  }

  function Exec(s: State, run: seq<Step>): State
    requires Legal(s, run)
    decreases |run|
  {
    if run == [] then s else Exec(Apply(s, run[0]), run[1..])
  }

  // ---- the invariant ------------------------------------------------------------

  /** The connection's serve goroutine still has the stream in hand. */
  predicate InHand(s: State, x: nat) {
    && x in s.origin && s.origin[x] in s.serves
    && (s.serves[s.origin[x]] == Offering(x) || s.serves[s.origin[x]] == Closing(x))
  }

  predicate StreamInv(s: State, x: nat) {
    if x in s.origin then
      && s.origin[x] in s.serves && s.origin[x] !in s.refused
      && !s.serves[s.origin[x]].Authorizing?
      && Ind(InHand(s, x)) + Ind(x in s.shut) + Ind(x in s.receiver) == 1
      && (x in s.receiver ==> s.receiver[x] in s.accepts && s.accepts[s.receiver[x]] == Got(x))
    else x !in s.shut && x !in s.receiver
  }

  predicate ServeInv(s: State, c: nat) {
    c in s.serves ==>
      match s.serves[c]
      case Offering(x) => x in s.origin && s.origin[x] == c
      case Closing(x) => x in s.origin && s.origin[x] == c && s.ctxDone
      case _ => true
  }

  predicate RefusedInv(s: State, c: nat) {
    c in s.refused ==> ServeIs(s, c, Gone)
  }

  /** An error `l.err` can hold. */
  predicate Recorded(s: State, e: LErr) {
    e == NetClosed || (e == Kind(ErrKind.Closed) && s.endpointClosed)
  }

  predicate CallInv(s: State, a: nat) {
    a in s.accepts ==>
      match s.accepts[a]
      case Selecting => true
      case Reading => s.ctxDone
      case Got(x) => x in s.receiver && s.receiver[x] == a
      case Told(e) => s.ctxDone && Recorded(s, e) && (e == NetClosed <==> s.err != Some(Kind(ErrKind.Closed)))
  }

  predicate LoopInv(s: State) {
    && (match s.loop
        case Calling => s.err.None?
        case Deciding(e) =>
          s.err.None? && !e.NetClosed? && (e.CtxEnded? ==> s.ctxDone)
          && (e == Kind(ErrKind.Closed) ==> s.endpointClosed)
        case Failing(e) => s.err.None? && (s.ctxDone || (e == Kind(ErrKind.Closed) && s.endpointClosed))
        case Cancelling => s.err.Some?
        case Ended => s.err.Some? && s.ctxDone)
    && (s.err.Some? ==> Recorded(s, s.err.value))
    && (s.err == Some(NetClosed) ==> s.closeCalled)
    && (s.closeCalled ==> s.ctxDone)
    && (s.ctxDone ==> s.closeCalled || s.loop.Ended?)
  }

  ghost predicate Inv(s: State) {
    && LoopInv(s)
    && (forall x {:trigger StreamInv(s, x)} :: StreamInv(s, x))
    && (forall c {:trigger ServeInv(s, c)} :: ServeInv(s, c))
    && (forall c {:trigger RefusedInv(s, c)} :: RefusedInv(s, c))
    && (forall a {:trigger CallInv(s, a)} :: CallInv(s, a))
  }

  // One group of steps at a time: those of a serve goroutine by itself, the hand-over, and
  // those that touch no stream.

  predicate IsServing(step: Step) {
    step.ConnArrives? || step.Authorize? || step.StreamArrives? || step.ServeEnds? || step.GiveUp? || step.ServeCloses?
  }

  lemma ServingStream(s: State, step: Step, x: nat)
    requires Enabled(s, step) && IsServing(step) && StreamInv(s, x)
    requires ServeInv(s, step.c) && RefusedInv(s, step.c)
    ensures StreamInv(Apply(s, step), x)
  {
    match step
    case ConnArrives(c) => assert x in s.origin ==> s.origin[x] != c;
    case Authorize(c, ok) => assert x in s.origin ==> s.origin[x] != c;
    case StreamArrives(c, y) =>
    case ServeEnds(c) =>
    case GiveUp(c) =>
    case ServeCloses(c) =>
  }

  lemma ServingKeeps(s: State, step: Step)
    requires Inv(s) && Enabled(s, step) && IsServing(step)
    ensures Inv(Apply(s, step))
  {
    var s' := Apply(s, step);
    assert ServeInv(s, step.c) && RefusedInv(s, step.c);
    forall x ensures StreamInv(s', x) {
      assert StreamInv(s, x);
      ServingStream(s, step, x);
    }
    forall c ensures ServeInv(s', c) && RefusedInv(s', c) {
      assert ServeInv(s, c) && RefusedInv(s, c);
      if step.StreamArrives? { assert StreamInv(s, step.s); }
    }
    forall a ensures CallInv(s', a) { assert CallInv(s, a); }
  }

  lemma DeliverKeeps(s: State, c: nat, a: nat)
    requires Inv(s) && Enabled(s, Deliver(c, a))
    ensures Inv(Apply(s, Deliver(c, a)))
  {
    var s' := Apply(s, Deliver(c, a));
    var y := s.serves[c].stream;
    assert ServeInv(s, c) && RefusedInv(s, c) && StreamInv(s, y) && InHand(s, y);
    forall x ensures StreamInv(s', x) {
      assert StreamInv(s, x);
      assert x != y ==> InHand(s', x) == InHand(s, x);
    }
    forall k ensures ServeInv(s', k) && RefusedInv(s', k) { assert ServeInv(s, k) && RefusedInv(s, k); }
    forall k ensures CallInv(s', k) { assert CallInv(s, k); }
  }

  /** The steps that touch no stream. */
  lemma ElsewhereFrame(s: State, step: Step)
    requires Enabled(s, step) && !IsServing(step) && !step.Deliver?
    ensures var s' := Apply(s, step);
            && s'.serves == s.serves && s'.refused == s.refused && s'.origin == s.origin
            && s'.shut == s.shut && s'.receiver == s.receiver
            && (s.ctxDone ==> s'.ctxDone)
  {
    match step
    case AcceptFails(e) =>
    case LoopStep =>
    case CallAccept(a) =>
    case SeeDone(a) =>
    case ReadErr(a) =>
    case CloseListener =>
    case CloseEndpoint =>
  }

  lemma GotStays(s: State, step: Step, k: nat)
    requires Enabled(s, step) && !IsServing(step) && !step.Deliver?
    requires k in s.accepts && s.accepts[k].Got?
    ensures k in Apply(s, step).accepts && Apply(s, step).accepts[k] == s.accepts[k]
  {
  }

  lemma ElsewhereCalls(s: State, step: Step, a: nat)
    requires Enabled(s, step) && !IsServing(step) && !step.Deliver? && LoopInv(s) && CallInv(s, a)
    ensures CallInv(Apply(s, step), a)
  {
  }

  lemma ElsewhereKeeps(s: State, step: Step)
    requires Inv(s) && Enabled(s, step) && !IsServing(step) && !step.Deliver?
    ensures Inv(Apply(s, step))
  {
    var s' := Apply(s, step);
    ElsewhereFrame(s, step);
    forall x ensures StreamInv(s', x) {
      assert StreamInv(s, x) && InHand(s', x) == InHand(s, x);
      if x in s.receiver { GotStays(s, step, s.receiver[x]); }
    }
    forall c ensures ServeInv(s', c) && RefusedInv(s', c) { assert ServeInv(s, c) && RefusedInv(s, c); }
    forall a ensures CallInv(s', a) {
      assert CallInv(s, a);
      ElsewhereCalls(s, step, a);
    }
    LoopKept(s, step);
  }

  lemma LoopKept(s: State, step: Step)
    requires LoopInv(s) && Enabled(s, step) && !IsServing(step) && !step.Deliver?
    ensures LoopInv(Apply(s, step))
  {
  }

  lemma StepKeeps(s: State, step: Step)
    requires Inv(s) && Enabled(s, step)
    ensures Inv(Apply(s, step))
  {
    if IsServing(step) { ServingKeeps(s, step); }
    else if step.Deliver? { DeliverKeeps(s, step.c, step.a); }
    else { ElsewhereKeeps(s, step); }
  }

  lemma {:induction false} RunKeeps(s: State, run: seq<Step>)
    requires Inv(s) && Legal(s, run)
    ensures Inv(Exec(s, run))
    decreases |run|
  {
    if run != [] {
      StepKeeps(s, run[0]);
      RunKeeps(Apply(s, run[0]), run[1..]);
    }
  }

  function At0(run: seq<Step>): State
    requires Legal(START, run)
  {
    Exec(START, run)
  }

  lemma Reached(run: seq<Step>)
    requires Legal(START, run)
    ensures Inv(At0(run))
  {
    RunKeeps(START, run);
  }

  // ---- what it guarantees -----------------------------------------------------------

  /** Accept call `a` returned stream `x`. */
  predicate HasStream(s: State, a: nat, x: nat) {
    a in s.accepts && s.accepts[a] == Got(x)
  }

  /** Each stream serve obtained is in exactly one place: still in that goroutine's hand,
      closed, or with the one Accept call that received it. */
  lemma DeliveredOrClosed(run: seq<Step>, x: nat, a: nat, b: nat)
    requires Legal(START, run) && x in At0(run).origin
    ensures var s := At0(run);
            && (HasStream(s, a, x) && HasStream(s, b, x) ==> a == b)
            && (HasStream(s, a, x) ==> x !in s.shut && !InHand(s, x))
            && (x in s.shut ==> !InHand(s, x))
            && (InHand(s, x) || x in s.shut || exists k :: HasStream(s, k, x))
  {
    var s := At0(run);
    Reached(run);
    assert StreamInv(s, x) && CallInv(s, a) && CallInv(s, b);
    if x in s.receiver { assert HasStream(s, s.receiver[x], x); }
  }

  /** Nobody is handed a stream that serve did not obtain, nor one of a refused peer. */
  lemma OnlyAuthorisedStreams(run: seq<Step>, a: nat)
    requires Legal(START, run) && a in At0(run).accepts && At0(run).accepts[a].Got?
    ensures var s := At0(run); var x := s.accepts[a].stream; x in s.origin && s.origin[x] !in s.refused
  {
    var s := At0(run);
    Reached(run);
    assert CallInv(s, a) && StreamInv(s, s.accepts[a].stream);
  }

  /** A refused connection is never served, in this state or any later one. */
  lemma {:induction false} RefusedForGood(s: State, run: seq<Step>, c: nat)
    requires Inv(s) && Legal(s, run) && c in s.refused
    ensures var s' := Exec(s, run);
            c in s'.refused && ServeIs(s', c, Gone) && forall x :: x in s'.origin ==> s'.origin[x] != c
    decreases |run|
  {
    if run == [] {
      assert RefusedInv(s, c);
      forall x | x in s.origin ensures s.origin[x] != c { assert StreamInv(s, x); }
    } else {
      StepKeeps(s, run[0]);
      RefusedForGood(Apply(s, run[0]), run[1..], c);
    }
  }

  /** Service ends for one of two reasons only: somebody closed the listener, or the
      endpoint is closed. A peer's failed handshake sends the loop round again. */
  lemma LoopOutlivesPeers(run: seq<Step>)
    requires Legal(START, run)
    ensures var s := At0(run);
            && (s.loop.Failing? || s.loop.Cancelling? || s.loop.Ended? || s.ctxDone ==> s.closeCalled || s.endpointClosed)
            && (s.loop.Deciding? && !s.closeCalled && !s.endpointClosed ==> Apply(s, LoopStep).loop.Calling?)
  {
    Reached(run);
  }

  /** Somewhere in the run the loop records its failure, the endpoint's closing, while the
      listener is still open. */
  predicate FailsOpen(s: State, run: seq<Step>)
    requires Legal(s, run)
    decreases |run|
  {
    run != [] &&
    ((run[0].LoopStep? && s.loop == Failing(Kind(ErrKind.Closed)) && !s.ctxDone) || FailsOpen(Apply(s, run[0]), run[1..]))
  }

  lemma StepRecords(s: State, step: Step)
    requires LoopInv(s) && Enabled(s, step)
    ensures Apply(s, step).err == Some(Kind(ErrKind.Closed)) <==>
            || s.err == Some(Kind(ErrKind.Closed))
            || (step.LoopStep? && s.loop == Failing(Kind(ErrKind.Closed)) && !s.ctxDone)
  {
  }

  /** The endpoint's error is recorded exactly by such a step. */
  lemma {:induction false} RecordedIffFailsOpen(s: State, run: seq<Step>)
    requires Inv(s) && Legal(s, run)
    ensures Exec(s, run).err == Some(Kind(ErrKind.Closed)) <==>
            s.err == Some(Kind(ErrKind.Closed)) || FailsOpen(s, run)
    decreases |run|
  {
    if run != [] {
      StepRecords(s, run[0]);
      StepKeeps(s, run[0]);
      RecordedIffFailsOpen(Apply(s, run[0]), run[1..]);
    }
  }

  /** The error Accept reports: net.ErrClosed, unless the loop failed while the listener was
      still open, which takes a closed endpoint. Then, and only then, it is the endpoint's own
      error, for every Accept of the run. */
  lemma {:induction false} WhatAcceptReports(run: seq<Step>, a: nat)
    requires Legal(START, run) && a in At0(run).accepts && At0(run).accepts[a].Told?
    ensures var e := At0(run).accepts[a].e;
            && (e == Kind(ErrKind.Closed) <==> FailsOpen(START, run))
            && (e == NetClosed <==> !FailsOpen(START, run))
            && (e != NetClosed ==> At0(run).endpointClosed)
  {
    Reached(run);
    RecordedIffFailsOpen(START, run);
    assert CallInv(At0(run), a);
  }

  /** Once the listener is closed, its loop no longer fails open: the ordinary order, Close
      first, keeps net.ErrClosed for good, whatever the endpoint does afterwards. */
  lemma {:induction false} ClosedFirstStaysClosed(s: State, run: seq<Step>)
    requires Inv(s) && Legal(s, run) && s.ctxDone && s.err != Some(Kind(ErrKind.Closed))
    ensures !FailsOpen(s, run) && Exec(s, run).err != Some(Kind(ErrKind.Closed))
    decreases |run|
  {
    if run != [] {
      StepKeeps(s, run[0]);
      StepRecords(s, run[0]);
      CtxStaysDone(s, run[0]);
      ClosedFirstStaysClosed(Apply(s, run[0]), run[1..]);
    }
  }

  lemma CtxStaysDone(s: State, step: Step)
    requires Enabled(s, step) && s.ctxDone
    ensures Apply(s, step).ctxDone
  {
  }

  /** So closing the listener before the endpoint is enough for every Accept. */
  lemma {:induction false} CloseBeforeEndpoint(s: State, run: seq<Step>, a: nat)
    requires Inv(s) && Legal(s, run) && s.ctxDone && !s.endpointClosed
    requires a in Exec(s, run).accepts && Exec(s, run).accepts[a].Told?
    ensures Exec(s, run).accepts[a].e == NetClosed
  {
    ClosedFirstStaysClosed(s, run);
    RunKeeps(s, run);
    assert CallInv(Exec(s, run), a);
  }

  lemma {:induction false} Extend(s: State, run: seq<Step>, step: Step)
    requires Legal(s, run) && Enabled(Exec(s, run), step)
    ensures Legal(s, run + [step]) && Exec(s, run + [step]) == Apply(Exec(s, run), step)
    decreases |run|
  {
    if run == [] {
      assert run + [step] == [step];
    } else {
      assert (run + [step])[0] == run[0] && (run + [step])[1..] == run[1..] + [step];
      Extend(Apply(s, run[0]), run[1..], step);
    }
  }

  lemma Reach(run: seq<Step>, s: State, step: Step) returns (longer: seq<Step>)
    requires Legal(START, run) && Exec(START, run) == s && Enabled(s, step)
    ensures Legal(START, longer) && Exec(START, longer) == Apply(s, step)
  {
    longer := run + [step];
    Extend(START, run, step);
  }

  /** The endpoint closes under an open listener, and the loop fails on that. */
  lemma EndpointFails() returns (run: seq<Step>)
    ensures Legal(START, run)
    ensures Exec(START, run) == START.(loop := Cancelling, endpointClosed := true, err := Some(Kind(ErrKind.Closed)))
  {
    var s := START;
    run := Reach([], s, CloseEndpoint);
    s := s.(endpointClosed := true);
    run := Reach(run, s, AcceptFails(Kind(ErrKind.Closed)));
    s := s.(loop := Deciding(Kind(ErrKind.Closed)));
    run := Reach(run, s, LoopStep);
    s := s.(loop := Failing(Kind(ErrKind.Closed)));
    run := Reach(run, s, LoopStep);
  }

  /** Then an Accept after Close still reports the endpoint's error. */
  lemma EndpointErrorAfterClose() returns (run: seq<Step>)
    ensures Legal(START, run)
    ensures var s := At0(run); s.closeCalled && 0 in s.accepts && s.accepts[0] == Told(Kind(ErrKind.Closed))
  {
    run := EndpointFails();
    var s := At0(run);
    run := Reach(run, s, CloseListener);
    s := s.(ctxDone := true, closeCalled := true);
    run := Reach(run, s, CallAccept(0));
    s := s.(accepts := map[0 := Selecting]);
    run := Reach(run, s, SeeDone(0));
    s := s.(accepts := map[0 := Reading]);
    run := Reach(run, s, ReadErr(0));
  }

  /** What is recorded stays: two Accept calls are never told different things once the
      loop has failed. */
  lemma {:induction false} RecordedForGood(s: State, run: seq<Step>)
    requires Inv(s) && Legal(s, run) && s.err.Some?
    ensures Exec(s, run).err == s.err
    decreases |run|
  {
    if run != [] {
      StepKeeps(s, run[0]);
      RecordedForGood(Apply(s, run[0]), run[1..]);
    }
  }

  // ---- serving goes on ------------------------------------------------------------------

  /** Connection `c` has not been authorised: it has obtained nothing, and is not at it. */
  ghost predicate NotLetIn(s: State, c: nat) {
    && (c in s.serves ==> s.serves[c].Authorizing? || s.serves[c].Gone?)
    && forall x :: x in s.origin ==> s.origin[x] != c
  }

  lemma StaysOut(s: State, step: Step, c: nat)
    requires NotLetIn(s, c) && Enabled(s, step) && step != Authorize(c, true)
    ensures NotLetIn(Apply(s, step), c)
  {
    if !IsServing(step) && !step.Deliver? { ElsewhereFrame(s, step); }
  }

  lemma {:induction false} LetInFirst(s: State, run: seq<Step>, c: nat)
    requires NotLetIn(s, c) && Legal(s, run) && Authorize(c, true) !in run
    ensures NotLetIn(Exec(s, run), c)
    decreases |run|
  {
    if run != [] {
      assert run[0] in run;
      StaysOut(s, run[0], c);
      LetInFirst(Apply(s, run[0]), run[1..], c);
    }
  }

  /** Every stream that is handed out comes from a connection whose peer was authorised. */
  lemma {:induction false} AuthorisedFirst(run: seq<Step>, a: nat)
    requires Legal(START, run) && a in At0(run).accepts && At0(run).accepts[a].Got?
    ensures var x := At0(run).accepts[a].stream; x in At0(run).origin && Authorize(At0(run).origin[x], true) in run
  {
    var s := At0(run);
    Reached(run);
    assert CallInv(s, a) && StreamInv(s, s.accepts[a].stream);
    var c := s.origin[s.accepts[a].stream];
    if Authorize(c, true) !in run { LetInFirst(START, run, c); }
  }

  /** The connection is being served, or is about to be. */
  predicate InService(s: State, c: nat, letIn: bool) {
    && c in s.serves
    && (s.serves[c].Accepting? || s.serves[c].Offering? || (!letIn && s.serves[c].Authorizing?))
  }

  lemma ServiceStep(s: State, step: Step, c: nat, letIn: bool)
    requires InService(s, c, letIn) && Enabled(s, step)
    requires step != Authorize(c, false) && step != ServeEnds(c) && step != GiveUp(c)
    ensures InService(Apply(s, step), c, letIn || step == Authorize(c, true))
  {
    if !IsServing(step) && !step.Deliver? { ElsewhereFrame(s, step); }
  }

  /** Serving a connection goes on, through any number of hand-overs and whatever happens to
      the loop and to other connections, until its peer is refused, its accept fails, or a
      stream is given up because the listener is closed; and once authorised, it is accepting
      streams or offering one. */
  lemma {:induction false} ServingGoesOn(s: State, run: seq<Step>, c: nat, letIn: bool)
    requires InService(s, c, letIn) && Legal(s, run)
    requires Authorize(c, false) !in run && ServeEnds(c) !in run && GiveUp(c) !in run
    ensures InService(Exec(s, run), c, letIn || Authorize(c, true) in run)
    decreases |run|
  {
    if run != [] {
      assert run[0] in run;
      ServiceStep(s, run[0], c, letIn);
      ServingGoesOn(Apply(s, run[0]), run[1..], c, letIn || run[0] == Authorize(c, true));
      assert run == [run[0]] + run[1..];
    }
  }

  /** The step behind a hand-over: the Accept call has the stream on offer, and the goroutine
      that offered it accepts the next one. */
  lemma HandOver(s: State, c: nat, a: nat)
    requires Enabled(s, Deliver(c, a))
    ensures var s' := Apply(s, Deliver(c, a));
            && ServeIs(s', c, Accepting) && HasStream(s', a, s.serves[c].stream)
            && (forall d :: d in s.serves && d != c ==> ServeIs(s', d, s.serves[d]))
            && (forall b :: b in s.accepts && b != a ==> b in s'.accepts && s'.accepts[b] == s.accepts[b])
  {
  }

  /** Once its accept fails for good the loop winds down by itself, in three steps: it records
      an error, closes the listener, and ends. Any other failure sends it back to accepting. */
  lemma {:induction false} LoopWindsDown(s: State)
    requires Inv(s) && s.loop.Deciding?
    ensures s.ctxDone || s.loop.e == Kind(ErrKind.Closed) ==>
      var end := Loop(Loop(Loop(s)));
      && Legal(s, [LoopStep, LoopStep, LoopStep]) && Exec(s, [LoopStep, LoopStep, LoopStep]) == end
      && end.loop.Ended? && end.ctxDone && end.err == Some(if s.ctxDone then NetClosed else s.loop.e)
    ensures !(s.ctxDone || s.loop.e == Kind(ErrKind.Closed)) ==>
      Legal(s, [LoopStep]) && Apply(s, LoopStep) == s.(loop := Calling)
  {
    var three, two, one := [LoopStep, LoopStep, LoopStep], [LoopStep, LoopStep], [LoopStep];
    assert three[1..] == two && two[1..] == one && one[1..] == [];
  }

  // ---- shutting down ------------------------------------------------------------------

  /** Steps the listener takes by itself once its context is done; an accept or an authorize
      hook that is still out answers in its own time. */
  predicate Own(step: Step) {
    step.LoopStep? || step.ServeEnds? || step.GiveUp? || step.ServeCloses? || step.SeeDone? || step.ReadErr?
  }

  ghost predicate Quiet(s: State) {
    forall step :: Own(step) ==> !Enabled(s, step)
  }

  /** After Close, when the listener has come to rest, no stream is stranded: each was
      received or closed, and every Accept call has returned. */
  lemma NothingStranded(run: seq<Step>, x: nat, a: nat)
    requires Legal(START, run) && At0(run).ctxDone && Quiet(At0(run))
    ensures var s := At0(run);
            && (x in s.origin ==> x in s.shut || exists k :: HasStream(s, k, x))
            && (a in s.accepts ==> s.accepts[a].Got? || s.accepts[a].Told?)
  {
    var s := At0(run);
    Reached(run);
    assert StreamInv(s, x);
    if x in s.origin {
      assert Own(GiveUp(s.origin[x])) && Own(ServeCloses(s.origin[x]));
      if x in s.receiver { assert HasStream(s, s.receiver[x], x); }
    }
    assert Own(SeeDone(a)) && Own(ReadErr(a));
  }

  // ---- the error cell, as the object the goroutines share ------------------------------

  class ErrCell {
    var ctxDone: bool
    var err: Option<LErr>

    constructor ()
      ensures !ctxDone && err == None
    {
      ctxDone, err := false, None;
    }

    method Close()
      modifies this`ctxDone
      ensures ctxDone
    {
      ctxDone := true;
    }

    /** `fail`: records the error, and then the listener is closed. */
    method Fail(e: LErr)
      modifies this
      ensures err == Recording(old(err), old(ctxDone), e) && ctxDone
    {
      if err == None {
        err := Some(if ctxDone then NetClosed else e);
      }
      Close();
    }

    method AcceptErr() returns (e: LErr)
      ensures e == err.GetOr(NetClosed)
    {
      if err != None { return err.value; }
      return NetClosed;
    }
  }
}
