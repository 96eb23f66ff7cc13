/** What the operation protocol guarantees, over every run. */
module OpTheorems {
  import opened Common
  import opened OpTypes
  import opened PumpTables
  import opened OpProtocol
  import opened OpInvariant
  import opened OpSteps

  lemma InitInv()
    ensures Inv(INIT)
  {
    forall h ensures ObjInv(INIT, h) && GoInv(INIT, h) {}
  }

  lemma {:induction false} StepKeeps(s: State, step: Step)
    requires Inv(s) && Enabled(s, step)
    ensures Inv(Apply(s, step))
  {
    match step
    case Reserve(a) => ReserveKeeps(s, a);
    case Spawn(i) => SpawnKeeps(s, i);
    case SpawnReady(i, k) => SpawnReadyKeeps(s, i, k);
    case TaskFinish(i, r) => TaskKeeps(s, i, Finished(r));
    case TaskProduce(i) => ProduceKeeps(s, i);
    case TaskStop(i) => TaskKeeps(s, i, Stopped);
    case TaskPanic(i) => TaskKeeps(s, i, Panicked);
    case Supervise(i) => SuperviseKeeps(s, i);
    case OutsideFetch(i) => OutsideKeeps(s, step);
    case OutsideFlag(i) => OutsideKeeps(s, step);
    case OutsideAbort(i) => OutsideKeeps(s, step);
    case Call(i) => CallKeeps(s, i);
    case CtxDone(i) => CtxDoneKeeps(s, i);
    case Pump =>
      if s.pump.Idle? { PopKeeps(s); } else if s.pump.Popped? { DeliverKeeps(s); } else { SendKeeps(s); }
    case Drop(i) => DropKeeps(s, i);
    case GoFree(h) => GoFreeKeeps(s, h);
  }

  /** The invariant holds in every state every run reaches. */
  lemma {:induction false} RunKeeps(s: State, run: seq<Step>)
    requires Inv(s) && Legal(s, run)
    ensures Inv(Exec(s, run))
    decreases |run|
  {
    if run != [] {
      StepKeeps(s, run[0]);
      RunKeeps(Apply(s, run[0]), run[1..]);
    }
  }

  // ---- exactly-once rendezvous ------------------------------------------------

  /** Whichever of `deliver` and `register` comes first, the completion of an operation is
      always in exactly one place, the two tables never share an id, and the pump's send
      finds room in the channel. */
  lemma ExactlyOnceRendezvous(run: seq<Step>, i: nat)
    requires Legal(INIT, run) && i in Exec(INIT, run).ops
    ensures var s := Exec(INIT, run);
            var o := s.ops[i];
            && Tokens(s, i, o) == Ind(Pushed(o))
            && !(i in s.tables.waiters && i in s.tables.unclaimed)
            && (s.pump.Sending? ==> PumpEnabled(s))
            && (o.chan.Some? ==> o.posted.Some? && o.chan.value == StatusOf(o.posted.value))
            && (Parked(o) && i !in s.tables.waiters && o.chan.None? ==> s.pump == Sending(i, StatusOf(o.posted.GetOr(Err(Internal)))))
  {
    var s := Exec(INIT, run);
    InitInv();
    RunKeeps(INIT, run);
    assert OpInv(s, i, s.ops[i]);
    assert TokenInv(s, i, s.ops[i]) && CallerInv(s.ops[i]);
    if s.pump.Sending? {
      SendKeeps(s);
      assert StatusInv(s, s.pump.op, s.pump.st);
    }
  }

  /** A received completion is nowhere else any more. */
  lemma ReceivedIsGone(s: State, i: nat)
    requires Inv(s) && i in s.ops && Received(s.ops[i])
    ensures Count(s.queue, i) == 0 && !InPumpHand(s, i) && s.ops[i].chan.None?
    ensures i !in s.tables.waiters && i !in s.tables.unclaimed
  {
    assert OpInv(s, i, s.ops[i]);
    assert TokenInv(s, i, s.ops[i]);
  }

  lemma NoneQueued(s: State)
    requires Inv(s) && forall i :: i in s.ops ==> Received(s.ops[i])
    ensures s.queue == [] && s.pump.Idle?
  {
    if s.queue != [] {
      assert StatusInv(s, s.queue[0].0, s.queue[0].1);
      ReceivedIsGone(s, s.queue[0].0);
    }
    if !s.pump.Idle? {
      assert StatusInv(s, s.pump.op, s.pump.st);
      ReceivedIsGone(s, s.pump.op);
    }
  }

  /** Once every caller has its status, `PendingOps` is 0 and nothing is left in flight. */
  lemma PendingOpsDrains(run: seq<Step>)
    requires Legal(INIT, run)
    requires forall i :: i in Exec(INIT, run).ops ==> Received(Exec(INIT, run).ops[i])
    ensures var s := Exec(INIT, run); Pending(s.tables) == 0 && s.queue == [] && s.pump.Idle?
  {
    var s := Exec(INIT, run);
    InitInv();
    RunKeeps(INIT, run);
    NoneQueued(s);
    assert s.tables.waiters == {} by {
      forall i ensures i !in s.tables.waiters {
        if i in s.ops { ReceivedIsGone(s, i); }
      }
    }
    assert s.tables.unclaimed.Keys == {} by {
      forall i ensures i !in s.tables.unclaimed {
        if i in s.tables.unclaimed { assert StatusInv(s, i, s.tables.unclaimed[i]); }
        if i in s.ops { ReceivedIsGone(s, i); }
      }
    }
    assert |s.tables.unclaimed| == |s.tables.unclaimed.Keys|;
  }

  /** The operations whose caller is parked and whose status the pump has still to hand over. */
  ghost function StillWaited(s: State): set<nat> {
    set i | i in s.ops && Parked(s.ops[i]) && s.ops[i].chan.None? && !(s.pump.Sending? && s.pump.op == i)
  }

  /** The operations whose completion was delivered before their caller registered. */
  ghost function CameEarly(s: State): set<nat> {
    set i | i in s.ops && NotYetRegistered(s.ops[i]) && Pushed(s.ops[i]) && Count(s.queue, i) == 0 && !InPumpHand(s, i)
  }

  lemma PlaceInTables(s: State, i: nat)
    requires Inv(s)
    ensures i in s.tables.waiters <==> i in StillWaited(s)
    ensures i in s.tables.unclaimed <==> i in CameEarly(s)
  {
    if i in s.ops {
      assert OpInv(s, i, s.ops[i]) && TokenInv(s, i, s.ops[i]);
    } else {
      assert i in s.tables.unclaimed ==> StatusInv(s, i, s.tables.unclaimed[i]);
    }
  }

  /** What `PendingOps` counts: the calls still waiting for their status, and the completions
      still waiting for their call; never an operation twice, and none that is over. */
  lemma {:induction false} PendingOpsCounts(run: seq<Step>)
    requires Legal(INIT, run)
    ensures var s := Exec(INIT, run);
            && s.tables.waiters == StillWaited(s) && s.tables.unclaimed.Keys == CameEarly(s)
            && StillWaited(s) !! CameEarly(s)
            && Pending(s.tables) == |StillWaited(s) + CameEarly(s)|
            && forall i :: i in StillWaited(s) + CameEarly(s) ==> !Received(s.ops[i])
  {
    var s := Exec(INIT, run);
    InitInv();
    RunKeeps(INIT, run);
    forall i ensures (i in s.tables.waiters <==> i in StillWaited(s)) && (i in s.tables.unclaimed <==> i in CameEarly(s)) {
      PlaceInTables(s, i);
    }
    assert s.tables.waiters == StillWaited(s) && s.tables.unclaimed.Keys == CameEarly(s);
    assert |s.tables.unclaimed| == |s.tables.unclaimed.Keys|;
  }

  // ---- cancellation and status --------------------------------------------------

  /** Once `spawn` has re-checked the flag and no canceller is halfway through, a requested
      cancellation has reached the task, whichever of the two looked first. */
  lemma NoLostCancel(run: seq<Step>, i: nat)
    requires Legal(INIT, run) && i in Exec(INIT, run).ops
    requires var o := Exec(INIT, run).ops[i];
             && o.cancelRequested && !o.task.NotStarted?
             && (o.spawner.Rechecked? || o.spawner.Returned?)
             && o.xFlagged == 0 && !o.caller.CancelFlagged?
    ensures Exec(INIT, run).ops[i].aborted
  {
    var s := Exec(INIT, run);
    InitInv();
    RunKeeps(INIT, run);
    assert OpInv(s, i, s.ops[i]) && CancelInv(s.ops[i]);
  }

  /** The posted outcome, hence the status, says what became of the task: OK exactly when
      it returned a value, cancelled exactly when it was stopped first. */
  lemma TruthfulStatus(run: seq<Step>, i: nat)
    requires Legal(INIT, run) && i in Exec(INIT, run).ops
    requires Exec(INIT, run).ops[i].posted.Some?
    ensures var o := Exec(INIT, run).ops[i];
            var st := StatusOf(o.posted.value);
            && (st == StOk <==> o.task.Finished? && o.task.out.Ok?)
            && (st == StOk ==> o.posted.value == o.task.out)
            && (st == StCancelled <==> o.task.Stopped?)
            && (st == StCancelled ==> o.aborted && o.cancelRequested)
  {
    var s := Exec(INIT, run);
    InitInv();
    RunKeeps(INIT, run);
    var o := s.ops[i];
    assert OpInv(s, i, o);
    assert SpawnInv(o) && OutcomeInv(o) && CancelInv(o);
  }

  // ---- an operation refines one atomic call ---------------------------------------

  /** What a caller may believe happens: the call is issued, its effect lands once, and it
      returns something consistent with the effect. */
  datatype Abs = Issued | Landed(out: Outcome) | Returned(out: Outcome, ret: Ret)

  predicate AbsNext(a: Abs, b: Abs) {
    || a == b
    || (a.Issued? && b.Landed?)
    || (a.Landed? && b.Returned? && b.out == a.out && RetFits(b.out, b.ret))
  }

  function Abstract(o: OpRec): Abs {
    if o.caller.Done? && o.posted.Some? then Abs.Returned(o.posted.value, o.caller.ret)
    else if Terminal(o.task) then Landed(JoinOutcome(o.task))
    else if o.task.NotStarted? && o.posted.Some? then Landed(o.posted.value)
    else Issued
  }

  /** What no step undoes. */
  predicate Grows(o: OpRec, o': OpRec) {
    && (o.posted.Some? ==> o'.posted == o.posted)
    && (Terminal(o.task) ==> o'.task == o.task)
    && (o.task.NotStarted? && o.posted.Some? ==> o'.task.NotStarted?)
    && (o.caller.Done? ==> o'.caller == o.caller)
    && (o'.caller.Done? && !o.caller.Done? ==> Received(o))
  }

  /** The operation a step works on (0, which is none, for a bare free). */
  function Actor(s: State, step: Step): nat {
    match step
    case Reserve(_) => s.next
    case Pump => if s.pump.Idle? then 0 else s.pump.op
    case GoFree(_) => 0
    case _ => step.op
  }

  lemma OthersKeep(s: State, step: Step, j: nat)
    requires Enabled(s, step) && j in s.ops && j != Actor(s, step)
    ensures j in Apply(s, step).ops && Apply(s, step).ops[j] == s.ops[j]
  {
    if step.Call? { CallKeepsOthers(s, step.op, j); }
    else if step.Spawn? { SpawnKeepsOthers(s, step.op, j); }
  }

  lemma CallKeepsOthers(s: State, i: nat, j: nat)
    requires i in s.ops && j in s.ops && j != i
    ensures j in CallStep(s, i).ops && CallStep(s, i).ops[j] == s.ops[j]
  {
  }

  lemma SpawnKeepsOthers(s: State, i: nat, j: nat)
    requires i in s.ops && j in s.ops && j != i
    ensures j in SpawnStep(s, i).ops && SpawnStep(s, i).ops[j] == s.ops[j]
  {
  }

  lemma {:induction false} CallGrows(s: State, i: nat)
    requires i in s.ops && CallEnabled(s.ops[i])
    ensures i in CallStep(s, i).ops && Grows(s.ops[i], CallStep(s, i).ops[i])
  {
    if s.ops[i].caller.Claiming? { ClaimGrows(s, i, s.ops[i].caller.st); }
  }

  lemma ClaimGrows(s: State, i: nat, st: Status)
    requires i in s.ops && s.ops[i].caller == Claiming(st)
    ensures i in ClaimStep(s, i, st).ops && Grows(s.ops[i], ClaimStep(s, i, st).ops[i])
  {
    var o := s.ops[i];
    if st == StOk && !o.await.AUnit? {
      HandOverGrows(s, i, AfterTake(s, i, o), Claim(o.await, TakeOutcome(s, i, o)));
    }
  }

  lemma HandOverGrows(s: State, i: nat, o': OpRec, c: Outcome)
    requires i in s.ops && s.ops[i].caller == Claiming(StOk)
    requires o' == s.ops[i].(result := o'.result, claimed := o'.claimed)
    ensures i in HandOver(s, i, o', c).ops && Grows(s.ops[i], HandOver(s, i, o', c).ops[i])
  {
  }

  lemma SpawnGrows(s: State, i: nat)
    requires SpawnEnabled(s, i) && SpawnInv(s.ops[i])
    ensures i in SpawnStep(s, i).ops && Grows(s.ops[i], SpawnStep(s, i).ops[i])
  {
  }

  lemma {:induction false} StepGrows(s: State, step: Step, i: nat)
    requires Inv(s) && Enabled(s, step) && i in s.ops
    ensures i in Apply(s, step).ops && Grows(s.ops[i], Apply(s, step).ops[i])
  {
    assert OpInv(s, i, s.ops[i]) && SpawnInv(s.ops[i]) && OutcomeInv(s.ops[i]);
    if i != Actor(s, step) {
      OthersKeep(s, step, i);
    } else if step.Call? {
      CallGrows(s, i);
    } else if step.Spawn? {
      SpawnGrows(s, i);
    } else if step.Reserve? {
      Fresh(s);
      assert false;
    } else if step.Pump? {
      PumpFills(s);
    } else {
      SideGrows(s, step);
    }
  }

  /** The pump's own steps at most fill the channel of the operation in its hand. */
  lemma PumpFills(s: State)
    requires PumpEnabled(s) && !s.pump.Idle? && s.pump.op in s.ops
    ensures var i := s.pump.op;
            i in PumpStep(s).ops && PumpStep(s).ops[i] == s.ops[i].(chan := PumpStep(s).ops[i].chan)
  {
  }

  lemma SideGrows(s: State, step: Step)
    requires Enabled(s, step) && !step.Call? && !step.Spawn? && !step.Reserve? && !step.GoFree? && !step.Pump?
    requires var i := Actor(s, step); i in s.ops && SpawnInv(s.ops[i]) && OutcomeInv(s.ops[i])
    ensures var i := Actor(s, step); i in Apply(s, step).ops && Grows(s.ops[i], Apply(s, step).ops[i])
  {
    match step
    case SpawnReady(i, k) =>
    case TaskFinish(i, r) =>
    case TaskProduce(i) =>
    case TaskStop(i) =>
    case TaskPanic(i) =>
    case Supervise(i) =>
    case OutsideFetch(i) =>
    case OutsideFlag(i) =>
    case OutsideAbort(i) =>
    case CtxDone(i) =>
    case Drop(i) =>
  }

  /** Every step of the protocol is, for every operation, a step of the atomic call. */
  lemma {:induction false} RefinesAtomicCall(s: State, step: Step, i: nat)
    requires Inv(s) && Enabled(s, step) && i in s.ops
    ensures i in Apply(s, step).ops
    ensures AbsNext(Abstract(s.ops[i]), Abstract(Apply(s, step).ops[i]))
  {
    StepGrows(s, step, i);
    StepKeeps(s, step);
    var o, o' := s.ops[i], Apply(s, step).ops[i];
    assert OpInv(s, i, o) && OpInv(Apply(s, step), i, o');
    GrowsRefines(o, o');
  }

  lemma GrowsRefines(o: OpRec, o': OpRec)
    requires Local(o) && Local(o') && Grows(o, o')
    ensures AbsNext(Abstract(o), Abstract(o'))
  {
    assert SpawnInv(o) && OutcomeInv(o) && CallerInv(o);
    assert SpawnInv(o') && OutcomeInv(o') && CallerInv(o');
  }

  /** Over a whole run: what a finished call returned fits what its task did. */
  lemma ReturnsTheTruth(run: seq<Step>, i: nat)
    requires Legal(INIT, run) && i in Exec(INIT, run).ops && Exec(INIT, run).ops[i].caller.Done?
    ensures var o := Exec(INIT, run).ops[i];
            && (o.caller.ret.Value? <==> o.task.Finished? && o.task.out.Ok?)
            && (o.caller.ret.Value? ==> o.task.out == Ok(o.caller.ret.v))
            && (o.task.Stopped? ==> o.caller.ret == CtxErr || o.caller.ret == Failed(Cancelled))
            && (o.task.Panicked? ==> o.caller.ret == CtxErr || o.caller.ret == Failed(Internal))
            && (o.task.Finished? && o.task.out.Err? ==>
                  o.caller.ret == CtxErr || o.caller.ret == Failed(o.task.out.error))
  {
    var s := Exec(INIT, run);
    InitInv();
    RunKeeps(INIT, run);
    var o := s.ops[i];
    assert OpInv(s, i, o);
    assert SpawnInv(o) && OutcomeInv(o) && CallerInv(o);
  }

  /** Nothing a record has settled on is taken back by a run. */
  lemma {:induction false} RunGrows(s: State, run: seq<Step>, i: nat)
    requires Inv(s) && Legal(s, run) && i in s.ops
    ensures i in Exec(s, run).ops
    ensures s.ops[i].posted.Some? ==> Exec(s, run).ops[i].posted == s.ops[i].posted
    ensures s.ops[i].caller.Done? ==> Exec(s, run).ops[i].caller == s.ops[i].caller
    decreases |run|
  {
    if run != [] {
      StepGrows(s, run[0], i);
      StepKeeps(s, run[0]);
      RunGrows(Apply(s, run[0]), run[1..], i);
    }
  }

  /** An operation refused before it starts: whatever happens then, a call that returns does
      so with the error of the refusal, or with its context's. */
  lemma {:induction false} RefusalIsReturned(s: State, i: nat, k: ErrKind, run: seq<Step>)
    requires Inv(s) && Enabled(s, SpawnReady(i, k)) && Legal(Apply(s, SpawnReady(i, k)), run)
    ensures var s' := Exec(Apply(s, SpawnReady(i, k)), run);
            && i in s'.ops
            && (s'.ops[i].caller.Done? ==> s'.ops[i].caller.ret == Failed(k) || s'.ops[i].caller.ret == CtxErr)
  {
    var s0 := Apply(s, SpawnReady(i, k));
    StepKeeps(s, SpawnReady(i, k));
    RunGrows(s0, run, i);
    RunKeeps(s0, run);
    var o := Exec(s0, run).ops[i];
    assert OpInv(Exec(s0, run), i, o);
    assert CallerInv(o);
  }

  // ---- handle conservation ----------------------------------------------------------

  /** A stream, connection or endpoint handle inserted by an operation always has exactly
      one owner: Go, or the one operation that made it. */
  lemma OneOwner(run: seq<Step>, h: nat)
    requires Legal(INIT, run)
    requires var s := Exec(INIT, run); h in s.objs && s.objs[h].ResObj?
    ensures var s := Exec(INIT, run);
            var m := s.objs[h].maker;
            && m in s.ops
            && (h in s.go <==> h !in Held(s.ops[m]))
            && forall j :: j in s.ops && h in Held(s.ops[j]) ==> j == m
  {
    var s := Exec(INIT, run);
    var m := s.objs[h].maker;
    InitInv();
    RunKeeps(INIT, run);
    assert ObjInv(s, h) && GoInv(s, h);
    forall j | j in s.ops && h in Held(s.ops[j]) ensures j == m && h !in s.go {
      assert OpInv(s, j, s.ops[j]) && HeldInv(s, j, s.ops[j]);
    }
  }

  /** Conversely, whatever an operation or Go owns is live. */
  lemma OwnedIsLive(run: seq<Step>, h: nat)
    requires Legal(INIT, run)
    ensures var s := Exec(INIT, run);
            && (h in s.go ==> h in s.objs && s.objs[h].ResObj?)
            && forall j :: j in s.ops && h in Held(s.ops[j]) ==> MadeBy(s, h, j)
  {
    var s := Exec(INIT, run);
    InitInv();
    RunKeeps(INIT, run);
    assert GoInv(s, h);
    forall j | j in s.ops && h in Held(s.ops[j]) ensures MadeBy(s, h, j) {
      assert OpInv(s, j, s.ops[j]) && HeldInv(s, j, s.ops[j]);
    }
  }

  /** No await in progress and every released `Arc` dropped. */
  predicate Settled(s: State) {
    forall i :: i in s.ops ==> s.ops[i].caller.Done? && s.ops[i].dropped
  }

  /** When everything has settled the registry holds what Go owns and nothing else: no
      operation, no error object, no handle of an abandoned result. */
  lemma NothingLeaks(run: seq<Step>)
    requires Legal(INIT, run) && Settled(Exec(INIT, run))
    ensures var s := Exec(INIT, run); s.objs.Keys == s.go
  {
    var s := Exec(INIT, run);
    InitInv();
    RunKeeps(INIT, run);
    SettledOwnership(s);
  }

  lemma SettledOwnership(s: State)
    requires Inv(s) && Settled(s)
    ensures s.objs.Keys == s.go
  {
    forall h ensures h in s.objs <==> h in s.go {
      assert ObjInv(s, h) && GoInv(s, h);
      if h in s.objs {
        var m := match s.objs[h] case OpObj => h case ErrObj(_, m) => m case ResObj(m, _) => m;
        assert OpInv(s, m, s.ops[m]);
        assert LiveInv(s, m, s.ops[m]) && SpawnInv(s.ops[m]) && OutcomeInv(s.ops[m]) && ResultInv(s.ops[m]);
      }
    }
  }

  /** The wrappers pair every operation with the `Await*` of its type. What that buys: a
      mismatched pair loses handles in exactly these cases. */
  lemma LeakIffMismatched(a: Await, v: OpValue)
    ensures Leaked(a, Ok(v)) != {} <==>
            || (v.Handle? && (a.AHandle2? || a.AU64? || a.ABytes?))
            || (v.Handle2? && (a.AHandle? || a.AU64? || a.ABytes?))
    ensures Typed(a, v) ==> Leaked(a, Ok(v)) == {} && Claim(a, Ok(v)) == Ok(v)
  {
    var c := Claim(a, Ok(v));
    if c == Ok(v) {
      assert Leaked(a, Ok(v)) == {};
    } else if v.Handle? {
      assert v.h in Leaked(a, Ok(v));
    } else if v.Handle2? {
      assert v.a in Leaked(a, Ok(v));
    }
  }

  // ---- handles are never reused --------------------------------------------------------

  /** What a handle that was once allocated can still be: what it was, or nothing. An id that
      was reserved for an operation may yet be published as that operation. */
  lemma StepNeverReuses(s: State, step: Step, h: nat)
    requires Inv(s) && Enabled(s, step) && h < s.next && h !in s.ops
    ensures SameOrGone(s, Apply(s, step), h)
  {
    if step.Call? {
      if s.ops[step.op].caller.Claiming? { ClaimNeverReuses(s, step.op, s.ops[step.op].caller.st, h); }
    } else if step.Spawn? {
      SpawnNeverReuses(s, step.op, h);
    } else {
      SideNeverReuses(s, step, h);
    }
  }

  lemma SideNeverReuses(s: State, step: Step, h: nat)
    requires Inv(s) && Enabled(s, step) && h < s.next && h !in s.ops && !step.Call? && !step.Spawn?
    ensures SameOrGone(s, Apply(s, step), h)
  {
    match step
    case Reserve(a) =>
    case SpawnReady(i, k) =>
    case TaskFinish(i, r) =>
    case TaskProduce(i) =>
    case TaskStop(i) =>
    case TaskPanic(i) =>
    case Supervise(i) =>
    case OutsideFetch(i) =>
    case OutsideFlag(i) =>
    case OutsideAbort(i) =>
    case CtxDone(i) =>
    case Pump =>
    case Drop(i) =>
    case GoFree(g) =>
  }

  predicate SameOrGone(s: State, s': State, h: nat) {
    && h < s'.next && h !in s'.ops
    && (h in s'.objs ==> h in s.objs && s'.objs[h] == s.objs[h])
    && (h in s.everGo ==> h in s'.everGo)
  }

  lemma ClaimNeverReuses(s: State, i: nat, st: Status, h: nat)
    requires i in s.ops && h < s.next && h !in s.ops
    ensures SameOrGone(s, ClaimStep(s, i, st), h)
  {
  }

  lemma SpawnNeverReuses(s: State, i: nat, h: nat)
    requires i in s.ops && h < s.next && h !in s.ops
    ensures SameOrGone(s, SpawnStep(s, i), h)
  {
  }

  /** A handle Go was given resolves, however late and however often it was freed, to the
      object it was given for or to nothing. */
  lemma {:induction false} StaleHandle(s: State, run: seq<Step>, h: nat)
    requires Inv(s) && Legal(s, run) && h < s.next && h !in s.ops
    ensures var s' := Exec(s, run);
            && (h in s'.objs ==> h in s.objs && s'.objs[h] == s.objs[h])
            && (h in s.everGo ==> h in s'.everGo)
    decreases |run|
  {
    if run != [] {
      StepNeverReuses(s, run[0], h);
      StepKeeps(s, run[0]);
      StaleHandle(Apply(s, run[0]), run[1..], h);
    }
  }

  // ---- which handle is which ------------------------------------------------------------

  /** The future's `k`-th handle, as it was published. */
  predicate BornAs(s: State, h: nat, i: nat, k: nat) {
    h in s.born && s.born[h] == ResObj(i, k)
  }

  /** Every handle a future has made was published in its place, in rising order. */
  predicate Traced(s: State, i: nat, t: Task) {
    match t
    case Producing(made) =>
      && (forall k :: 0 <= k < |made| ==> BornAs(s, made[k], i, k))
      && (forall k :: 0 < k < |made| ==> made[k - 1] < made[k])
    case Finished(Ok(Handle(h))) => BornAs(s, h, i, 0)
    case Finished(Ok(Handle2(a, b))) => BornAs(s, a, i, 0) && BornAs(s, b, i, 1) && a < b
    case _ => true
  }

  /** What a future's handle resolves to is what it was published as, or nothing. */
  predicate BornInv(s: State, h: nat) {
    h in s.born ==> h < s.next && h !in s.ops && (h in s.objs ==> s.objs[h] == s.born[h])
  }

  ghost predicate HistoryInv(s: State) {
    && (forall h {:trigger BornInv(s, h)} :: BornInv(s, h))
    && (forall i :: i in s.ops ==> Traced(s, i, s.ops[i].task))
  }

  lemma CallKeepsTask(s: State, i: nat)
    requires i in s.ops && CallEnabled(s.ops[i])
    ensures CallStep(s, i).born == s.born
    ensures i in CallStep(s, i).ops && CallStep(s, i).ops[i].task == s.ops[i].task
  {
    if s.ops[i].caller.Claiming? { ClaimKeepsTask(s, i, s.ops[i].caller.st); }
  }

  lemma ClaimKeepsTask(s: State, i: nat, st: Status)
    requires i in s.ops
    ensures ClaimStep(s, i, st).born == s.born
    ensures i in ClaimStep(s, i, st).ops && ClaimStep(s, i, st).ops[i].task == s.ops[i].task
  {
  }

  lemma SpawnStartsTask(s: State, i: nat)
    requires SpawnEnabled(s, i)
    ensures SpawnStep(s, i).born == s.born && i in SpawnStep(s, i).ops
    ensures var t' := SpawnStep(s, i).ops[i].task; t' == s.ops[i].task || t' == Running
  {
  }

  lemma SideKeepsBorn(s: State, step: Step)
    requires Enabled(s, step) && !step.Call? && !step.Spawn? && !step.TaskProduce?
    ensures Apply(s, step).born == s.born
  {
  }

  lemma OutsideKeepsTask(s: State, step: Step)
    requires Enabled(s, step) && (step.OutsideFetch? || step.OutsideFlag? || step.OutsideAbort? || step.CtxDone?)
    ensures step.op in Apply(s, step).ops && Apply(s, step).ops[step.op].task == s.ops[step.op].task
  {
    match step
    case OutsideFetch(i) =>
    case OutsideFlag(i) =>
    case OutsideAbort(i) =>
    case CtxDone(i) =>
  }

  lemma SideKeepsTask(s: State, step: Step)
    requires Enabled(s, step) && (step.SpawnReady? || step.Supervise? || step.Drop?)
    ensures step.op in Apply(s, step).ops && Apply(s, step).ops[step.op].task == s.ops[step.op].task
  {
    match step
    case SpawnReady(i, k) =>
    case Supervise(i) =>
    case Drop(i) =>
  }

  /** A future that ends at an await point has no handle to return. */
  lemma TaskEndsBare(s: State, step: Step)
    requires Enabled(s, step) && (step.TaskFinish? || step.TaskStop? || step.TaskPanic?)
    ensures step.op in Apply(s, step).ops && Traced(Apply(s, step), step.op, Apply(s, step).ops[step.op].task)
  {
  }

  /** The future publishes one handle more under its next place, or returns what it made. */
  lemma ProduceTraced(s: State, i: nat)
    requires HistoryInv(s) && i in s.ops && ProduceEnabled(s.ops[i])
    ensures i in ProduceStep(s, i).ops && Traced(ProduceStep(s, i), i, ProduceStep(s, i).ops[i].task)
  {
    var t := s.ops[i].task;
    assert Traced(s, i, t) && (s.next in s.born ==> BornInv(s, s.next));
    if t.Producing? && |t.made| < HandlesNeeded(s.ops[i].await) {
      var made' := t.made + [s.next];
      assert ProduceStep(s, i).ops[i].task == Producing(made');
      forall k | 0 <= k < |made'| ensures BornAs(ProduceStep(s, i), made'[k], i, k) {
        if k < |t.made| { assert BornAs(s, t.made[k], i, k); }
      }
      forall k | 0 < k < |made'| ensures made'[k - 1] < made'[k] {
        assert BornAs(s, t.made[k - 1], i, k - 1) && BornInv(s, t.made[k - 1]);
      }
    } else if t.Producing? {
      assert forall k :: 0 <= k < |t.made| ==> BornAs(s, t.made[k], i, k);
    }
  }

  lemma BornStep(s: State, step: Step, h: nat)
    requires Inv(s) && Enabled(s, step) && BornInv(s, h)
    ensures BornInv(Apply(s, step), h)
    ensures h in s.born ==> h in Apply(s, step).born && Apply(s, step).born[h] == s.born[h]
  {
    Fresh(s);
    if h in s.born { StepNeverReuses(s, step, h); }
    if step.TaskProduce? { }
    else if step.Call? { CallKeepsTask(s, step.op); }
    else if step.Spawn? { SpawnStartsTask(s, step.op); }
    else { SideKeepsBorn(s, step); }
  }

  lemma ActorTraced(s: State, step: Step)
    requires HistoryInv(s) && Enabled(s, step) && !step.Reserve? && Actor(s, step) in s.ops && 0 !in s.ops
    ensures var i := Actor(s, step); i in Apply(s, step).ops && Traced(Apply(s, step), i, Apply(s, step).ops[i].task)
  {
    var i := Actor(s, step);
    assert Traced(s, i, s.ops[i].task);
    if step.Call? { CallKeepsTask(s, i); }
    else if step.Spawn? { SpawnStartsTask(s, i); }
    else if step.TaskProduce? { ProduceTraced(s, i); }
    else if step.TaskFinish? || step.TaskStop? || step.TaskPanic? { TaskEndsBare(s, step); }
    else if step.Pump? { PumpFills(s); }
    else if step.SpawnReady? || step.Supervise? || step.Drop? { SideKeepsTask(s, step); }
    else { OutsideKeepsTask(s, step); }
  }

  lemma TracedKept(s: State, s': State, i: nat, t: Task)
    requires Traced(s, i, t) && forall h :: h in s.born ==> h in s'.born && s'.born[h] == s.born[h]
    ensures Traced(s', i, t)
  {
    if t.Producing? {
      forall k | 0 <= k < |t.made| ensures BornAs(s', t.made[k], i, k) { assert BornAs(s, t.made[k], i, k); }
    }
  }

  lemma {:induction false} StepTraces(s: State, step: Step)
    requires Inv(s) && HistoryInv(s) && Enabled(s, step)
    ensures HistoryInv(Apply(s, step))
  {
    var s' := Apply(s, step);
    forall h ensures BornInv(s', h) && (h in s.born ==> h in s'.born && s'.born[h] == s.born[h]) {
      assert BornInv(s, h);
      BornStep(s, step, h);
    }
    forall i | i in s'.ops ensures Traced(s', i, s'.ops[i].task) {
      if i !in s.ops {
        NobodyElse(s, step, i);
      } else if step.Reserve? || i != Actor(s, step) {
        assert i != s.next by { Fresh(s); }
        OthersKeep(s, step, i);
        TracedKept(s, s', i, s.ops[i].task);
      } else {
        ActorTraced(s, step);
      }
    }
  }

  lemma {:induction false} RunTraces(s: State, run: seq<Step>)
    requires Inv(s) && HistoryInv(s) && Legal(s, run)
    ensures HistoryInv(Exec(s, run))
    decreases |run|
  {
    if run != [] {
      StepTraces(s, run[0]);
      StepKeeps(s, run[0]);
      RunTraces(Apply(s, run[0]), run[1..]);
    }
  }

  /** A call that returns a pair returns the send half's handle first: the first of the two
      was published before the second, each in its place, by the operation of the call, and
      as long as it resolves at all it resolves to just that. */
  lemma {:induction false} PairsInOrder(run: seq<Step>, i: nat, a: nat, b: nat)
    requires Legal(INIT, run) && i in Exec(INIT, run).ops
    requires Exec(INIT, run).ops[i].caller == Done(Value(Handle2(a, b)))
    ensures var s := Exec(INIT, run);
            && a in s.born && s.born[a] == ResObj(i, 0)
            && b in s.born && s.born[b] == ResObj(i, 1)
            && a < b
            && (a in s.objs ==> s.objs[a] == ResObj(i, 0)) && (b in s.objs ==> s.objs[b] == ResObj(i, 1))
  {
    InitInv();
    RunKeeps(INIT, run);
    RunTraces(INIT, run);
    ReturnsTheTruth(run, i);
    var s := Exec(INIT, run);
    assert Traced(s, i, s.ops[i].task);
    assert BornInv(s, a) && BornInv(s, b);
  }

  /** A call that returns one handle returns the one its operation published. */
  lemma {:induction false} HandleIsItsOwn(run: seq<Step>, i: nat, h: nat)
    requires Legal(INIT, run) && i in Exec(INIT, run).ops
    requires Exec(INIT, run).ops[i].caller == Done(Value(Handle(h)))
    ensures var s := Exec(INIT, run);
            h in s.born && s.born[h] == ResObj(i, 0) && (h in s.objs ==> s.objs[h] == ResObj(i, 0))
  {
    InitInv();
    RunKeeps(INIT, run);
    RunTraces(INIT, run);
    ReturnsTheTruth(run, i);
    var s := Exec(INIT, run);
    assert Traced(s, i, s.ops[i].task);
    assert BornInv(s, h);
  }

  // ---- when only the awaiting call cancels -----------------------------------------------

  /** Only the awaiting call may have asked for a stop; if it has, it either reports its
      context's error or found that the operation had produced a value. */
  predicate Alone(o: OpRec) {
    && o.xFetched == 0 && o.xFlagged == 0
    && (o.cancelRequested ==>
          CtxHasEnded(o.caller) || (Received(o) && o.posted.Some? && o.posted.value.Ok?))
  }

  ghost predicate AllAlone(s: State) {
    forall i :: i in s.ops ==> Alone(s.ops[i])
  }

  lemma AwaitStaysAlone(o: OpRec, o': OpRec)
    requires AwaitChange(o, o') && Alone(o) && CallerInv(o)
    ensures Alone(o')
  {
  }

  lemma AwaitAlone(s: State, i: nat)
    requires i in s.ops && CallEnabled(s.ops[i]) && Awaiting(s.ops[i].caller)
    requires Alone(s.ops[i]) && CallerInv(s.ops[i])
    ensures i in AwaitStep(s, i).ops && Alone(AwaitStep(s, i).ops[i])
  {
    AwaitChanges(s, i);
    AwaitStaysAlone(s.ops[i], AwaitStep(s, i).ops[i]);
  }

  /** Claiming and releasing never touch the flag, and end in a received state. */
  lemma {:induction false} ClaimAlone(s: State, i: nat, st: Status)
    requires i in s.ops && s.ops[i].caller == Claiming(st) && Alone(s.ops[i])
    ensures i in ClaimStep(s, i, st).ops && Alone(ClaimStep(s, i, st).ops[i])
  {
    var o := s.ops[i];
    if st == StOk && !o.await.AUnit? {
      HandOverAlone(s, i, AfterTake(s, i, o), Claim(o.await, TakeOutcome(s, i, o)));
    }
  }

  lemma HandOverAlone(s: State, i: nat, o: OpRec, c: Outcome)
    requires o.caller == Claiming(StOk) && Alone(o)
    ensures i in HandOver(s, i, o, c).ops && Alone(HandOver(s, i, o, c).ops[i])
  {
  }

  lemma ReleaseAlone(s: State, i: nat)
    requires i in s.ops && CallEnabled(s.ops[i]) && !Awaiting(s.ops[i].caller) && !s.ops[i].caller.Claiming?
    requires Alone(s.ops[i])
    ensures i in ReleaseStep(s, i).ops && Alone(ReleaseStep(s, i).ops[i])
  {
  }

  lemma SpawnAlone(s: State, i: nat)
    requires SpawnEnabled(s, i) && SpawnInv(s.ops[i]) && Alone(s.ops[i])
    ensures i in SpawnStep(s, i).ops && Alone(SpawnStep(s, i).ops[i])
  {
  }

  lemma TaskAlone(s: State, step: Step)
    requires Enabled(s, step)
    requires step.TaskFinish? || step.TaskProduce? || step.TaskStop? || step.TaskPanic?
    requires Alone(s.ops[step.op])
    ensures step.op in Apply(s, step).ops && Alone(Apply(s, step).ops[step.op])
  {
    match step
    case TaskFinish(i, r) =>
    case TaskProduce(i) => ProduceAlone(s, i);
    case TaskStop(i) =>
    case TaskPanic(i) =>
  }

  lemma ProduceAlone(s: State, i: nat)
    requires i in s.ops && ProduceEnabled(s.ops[i]) && Alone(s.ops[i])
    ensures i in ProduceStep(s, i).ops && Alone(ProduceStep(s, i).ops[i])
  {
    ProduceMovesTask(s, i);
  }

  lemma SideAlone(s: State, step: Step)
    requires Enabled(s, step)
    requires step.SpawnReady? || step.Supervise? || step.OutsideFlag? || step.OutsideAbort? || step.CtxDone?
             || step.Drop?
    requires var i := Actor(s, step);
             i in s.ops && SpawnInv(s.ops[i]) && OutcomeInv(s.ops[i]) && Alone(s.ops[i])
    ensures var i := Actor(s, step); i in Apply(s, step).ops && Alone(Apply(s, step).ops[i])
  {
    match step
    case SpawnReady(i, k) =>
    case Supervise(i) =>
    case OutsideFlag(i) =>
    case OutsideAbort(i) =>
    case CtxDone(i) =>
    case Drop(i) =>
  }

  lemma {:induction false} ActorAlone(s: State, step: Step)
    requires Inv(s) && Enabled(s, step) && !step.OutsideFetch?
    requires Actor(s, step) in s.ops && Alone(s.ops[Actor(s, step)])
    ensures var i := Actor(s, step); i in Apply(s, step).ops && Alone(Apply(s, step).ops[i])
  {
    var i := Actor(s, step);
    assert OpInv(s, i, s.ops[i]) && SpawnInv(s.ops[i]) && OutcomeInv(s.ops[i]) && CallerInv(s.ops[i]);
    assert !step.GoFree? && !step.Reserve?;
    if step.Call? {
      if Awaiting(s.ops[i].caller) { AwaitAlone(s, i); }
      else if s.ops[i].caller.Claiming? { ClaimAlone(s, i, s.ops[i].caller.st); }
      else { ReleaseAlone(s, i); }
    } else if step.Spawn? {
      SpawnAlone(s, i);
    } else if step.TaskFinish? || step.TaskProduce? || step.TaskStop? || step.TaskPanic? {
      TaskAlone(s, step);
    } else if step.Pump? {
      PumpFills(s);
    } else {
      SideAlone(s, step);
    }
  }

  lemma CallAddsNone(s: State, i: nat, j: nat)
    requires i in s.ops && j !in s.ops
    ensures j !in CallStep(s, i).ops
  {
  }

  lemma SpawnAddsNone(s: State, i: nat, j: nat)
    requires i in s.ops && j !in s.ops
    ensures j !in SpawnStep(s, i).ops
  {
  }

  lemma NobodyElse(s: State, step: Step, i: nat)
    requires Enabled(s, step) && i in Apply(s, step).ops && i !in s.ops
    ensures step.Reserve? && Apply(s, step).ops[i] == NewOp(step.await)
  {
    if step.Call? { CallAddsNone(s, step.op, i); }
    else if step.Spawn? { SpawnAddsNone(s, step.op, i); }
  }

  lemma {:induction false} StepAlone(s: State, step: Step)
    requires Inv(s) && AllAlone(s) && Enabled(s, step) && !step.OutsideFetch?
    ensures AllAlone(Apply(s, step))
  {
    forall i | i in Apply(s, step).ops ensures Alone(Apply(s, step).ops[i]) {
      if i !in s.ops { NobodyElse(s, step, i); }
      else if i == Actor(s, step) { ActorAlone(s, step); }
      else { OthersKeep(s, step, i); }
    }
  }

  lemma {:induction false} RunAlone(s: State, run: seq<Step>)
    requires Inv(s) && AllAlone(s) && Legal(s, run)
    requires forall k :: 0 <= k < |run| ==> !run[k].OutsideFetch?
    ensures AllAlone(Exec(s, run))
    decreases |run|
  {
    if run != [] {
      StepAlone(s, run[0]);
      StepKeeps(s, run[0]);
      forall k | 0 <= k < |run[1..]| ensures !run[1..][k].OutsideFetch? { assert run[1..][k] == run[k + 1]; }
      RunAlone(Apply(s, run[0]), run[1..]);
    }
  }

  /** With nobody else cancelling, a stop is the caller's own doing, and so is never reported
      as a failure. */
  lemma {:induction false} StopIsOwn(s: State, i: nat)
    requires Inv(s) && AllAlone(s) && i in s.ops
    ensures Abstract(s.ops[i]) == Landed(Err(Cancelled)) ==> CtxHasEnded(s.ops[i].caller)
    ensures s.ops[i].caller != Done(Failed(Cancelled))
    ensures s.ops[i].caller.Done? && s.ops[i].task.Stopped? ==> s.ops[i].caller.ret == CtxErr
  {
    var o := s.ops[i];
    assert OpInv(s, i, o);
    assert SpawnInv(o) && OutcomeInv(o) && CallerInv(o) && CancelInv(o) && Alone(o);
  }

  /** In a run without outside cancels a call returns the operation's value, the operation's
      own failure, or its context's error; a stopped task is always the context's doing, and
      a context's error is reported only for a task that produced no value. */
  lemma {:induction false} CancelledIsTheContexts(run: seq<Step>, i: nat)
    requires Legal(INIT, run) && forall k :: 0 <= k < |run| ==> !run[k].OutsideFetch?
    requires i in Exec(INIT, run).ops && Exec(INIT, run).ops[i].caller.Done?
    ensures var o := Exec(INIT, run).ops[i];
            && o.caller.ret != Failed(Cancelled)
            && (o.task.Stopped? ==> o.caller.ret == CtxErr)
  {
    InitInv();
    RunKeeps(INIT, run);
    RunAlone(INIT, run);
    StopIsOwn(Exec(INIT, run), i);
  }

  /** And while the call is still out: a task is stopped only after its caller saw the
      context end. This is what lets a stream call treat the whole operation as one atomic
      call under its own context. */
  lemma {:induction false} StopsAreTheContexts(run: seq<Step>, i: nat)
    requires Legal(INIT, run) && forall k :: 0 <= k < |run| ==> !run[k].OutsideFetch?
    requires i in Exec(INIT, run).ops
    ensures var o := Exec(INIT, run).ops[i];
            Abstract(o) == Landed(Err(Cancelled)) ==> CtxHasEnded(o.caller)
  {
    InitInv();
    RunKeeps(INIT, run);
    RunAlone(INIT, run);
    StopIsOwn(Exec(INIT, run), i);
  }
}
