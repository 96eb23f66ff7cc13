/** The operation protocol drives a stream half: one operation of the protocol, run for one
    call of the half, shows the half exactly the landings and returns its machine allows. */
module Bridge {
  import opened Common
  import opened OpTypes
  import P = OpProtocol
  import PI = OpInvariant
  import PS = OpSteps
  import PT = OpTheorems
  import S = StreamHalf
  import SI = HalfInvariant
  import SS = HalfSteps

  // ---- the link -----------------------------------------------------------------------------

  /** The context of the half's call has ended. */
  predicate CtxEnded(h: S.State, c: nat) {
    c in h.callers && h.callers[c].reg in h.ctxs && h.ctxs[h.callers[c].reg].err.Some?
  }

  /** The awaiting goroutine has chosen the context's end over the completion. */
  predicate SawCtxEnd(c: P.CallPc) {
    c.CancelFetched? || PI.CtxHasEnded(c)
  }

  /** Operation `i` of the protocol is the one call `c` of the half has outstanding: it has
      landed there if it has landed here, with the same outcome, and its caller acts on the
      half's own context. */
  predicate Linked(p: P.State, h: S.State, i: nat, c: nat) {
    && i in p.ops
    && (match PT.Abstract(p.ops[i])
        case Issued => S.OpIs(h, c, S.Issued) || S.OpIs(h, c, S.Queued)
        case Landed(out) => InOp(h, c) && h.callers[c].op.Landed? && h.callers[c].op.out == out
        case Returned(_, _) => true)
    && (SawCtxEnd(p.ops[i].caller) && !p.ops[i].caller.Done? ==> CtxEnded(h, c))
  }

  predicate InOp(h: S.State, c: nat) {
    c in h.callers && h.callers[c].pc.InOp?
  }

  /** The outcome with which a landing of the half ends its operation. */
  function OutcomeOf(half: S.Half, step: S.Step): Outcome
    requires SS.IsLanding(step)
  {
    match step
    case LandMove(_, chunk) => Ok(if half.SendHalf? then U64(|chunk|) else Bytes(chunk))
    case LandEof(_) => Ok(Eof)
    case LandFail(_, k) => Err(k)
    case LandStop(_) => Err(Cancelled)
    case LandGone(_) => Err(ErrKind.Closed)
  }

  /** The link begins when the call issues its operation and the library reserves it. */
  lemma LinkedAtIssue(p: P.State, h: S.State, a: Await, c: nat)
    requires PI.Inv(p) && S.Enabled(h, S.Issue(c)) && S.Remaining(h.half, h.callers[c]) > 0
    ensures Linked(P.Apply(p, P.Reserve(a)), S.Apply(h, S.Issue(c)), p.next, c)
  {
    var p' := P.Put(p, p.next, P.NewOp(a)).(next := p.next + 1);
    assert P.Apply(p, P.Reserve(a)) == p' && PT.Abstract(p'.ops[p.next]).Issued?;
  }

  // ---- joint runs -----------------------------------------------------------------------------

  // A step of the protocol, with the landing it stands for if it ends the operation otherwise
  // than by a stop, or a step of the half alone.
  datatype Move = Proto(step: P.Step, land: S.Step) | Alone(half: S.Step)

  /** What the half sees of a protocol step. */
  function Shadow(p: P.State, i: nat, c: nat, m: Move): seq<S.Step>
    requires m.Proto? && P.Enabled(p, m.step) && i in p.ops && i in P.Apply(p, m.step).ops
  {
    match (PT.Abstract(p.ops[i]), PT.Abstract(P.Apply(p, m.step).ops[i]))
    case (Issued, Landed(out)) => [if out == Err(Cancelled) then S.LandStop(c) else m.land]
    case (Landed(_), Returned(_, ret)) => [S.Return(c, ret)]
    case _ => []
  }

  /** What the surroundings must respect. The goroutine sees its context end only when it has;
      an operation that ends by itself ends as the library stream lets it; and the half leaves
      the landing and the return of this operation to the protocol. */
  predicate Allowed(p: P.State, h: S.State, i: nat, c: nat, m: Move) {
    match m
    case Proto(step, land) =>
      && P.Enabled(p, step) && !step.OutsideFetch?
      && (step == P.CtxDone(i) ==> CtxEnded(h, c))
      && (i in p.ops && i in P.Apply(p, step).ops && PT.Abstract(p.ops[i]).Issued? ==>
            var b := PT.Abstract(P.Apply(p, step).ops[i]);
            b.Landed? && b.out != Err(Cancelled) ==>
              SS.IsLanding(land) && land.c == c && S.Enabled(h, land) && OutcomeOf(h.half, land) == b.out)
    case Alone(step) =>
      && S.Enabled(h, step)
      && (i in p.ops && !PT.Abstract(p.ops[i]).Returned? ==>
            !(SS.IsLanding(step) && step.c == c) && !(step.Return? && step.c == c))
  }

  function NextP(p: P.State, m: Move): P.State
    requires m.Proto? ==> P.Enabled(p, m.step)
  {
    if m.Proto? then P.Apply(p, m.step) else p
  }

  /** The steps of the half a move stands for. */
  function Half(p: P.State, i: nat, c: nat, m: Move): seq<S.Step>
    requires m.Proto? ==> P.Enabled(p, m.step)
  {
    if m.Alone? then [m.half]
    else if i in p.ops && i in P.Apply(p, m.step).ops then Shadow(p, i, c, m)
    else []
  }

  /** The half after these steps, as far as they are legal. */
  function NextH(h: S.State, steps: seq<S.Step>): S.State {
    if S.Legal(h, steps) then S.Exec(h, steps) else h
  }

  predicate Joint(p: P.State, h: S.State, i: nat, c: nat, ms: seq<Move>)
    decreases |ms|
  {
    ms == []
    || (Allowed(p, h, i, c, ms[0]) && Joint(NextP(p, ms[0]), NextH(h, Half(p, i, c, ms[0])), i, c, ms[1..]))
  }

  /** Everything the half does in a joint run. */
  function HalfRun(p: P.State, h: S.State, i: nat, c: nat, ms: seq<Move>): seq<S.Step>
    requires Joint(p, h, i, c, ms)
    decreases |ms|
  {
    if ms == [] then []
    else
      var steps := Half(p, i, c, ms[0]);
      steps + HalfRun(NextP(p, ms[0]), NextH(h, steps), i, c, ms[1..])
  }

  // ---- one protocol step ------------------------------------------------------------------------

  lemma {:induction false} CallSees(p: P.State, i: nat)
    requires i in p.ops && P.CallEnabled(p.ops[i]) && i in P.CallStep(p, i).ops
    ensures SawCtxEnd(P.CallStep(p, i).ops[i].caller) ==> SawCtxEnd(p.ops[i].caller)
  {
    var o := p.ops[i];
    if o.caller.Claiming? {
      ClaimSees(p, i, o.caller.st);
    } else if P.Awaiting(o.caller) {
      AwaitSees(p, i);
    } else {
      ReleaseSees(p, i);
    }
  }

  lemma ClaimSees(p: P.State, i: nat, st: Status)
    requires i in p.ops && p.ops[i].caller == P.Claiming(st) && i in P.ClaimStep(p, i, st).ops
    ensures !SawCtxEnd(P.ClaimStep(p, i, st).ops[i].caller)
  {
    var o := p.ops[i];
    if st == StOk && !o.await.AUnit? {
      HandOverSees(p, i, P.AfterTake(p, i, o), Claim(o.await, P.TakeOutcome(p, i, o)));
    }
  }

  lemma HandOverSees(p: P.State, i: nat, o: P.OpRec, c: Outcome)
    ensures i in P.HandOver(p, i, o, c).ops && !SawCtxEnd(P.HandOver(p, i, o, c).ops[i].caller)
  {
  }

  lemma AwaitChangeSees(o: P.OpRec, o': P.OpRec)
    requires PS.AwaitChange(o, o')
    ensures SawCtxEnd(o'.caller) ==> SawCtxEnd(o.caller)
  {
  }

  lemma AwaitSees(p: P.State, i: nat)
    requires i in p.ops && P.CallEnabled(p.ops[i]) && P.Awaiting(p.ops[i].caller) && i in P.AwaitStep(p, i).ops
    ensures SawCtxEnd(P.AwaitStep(p, i).ops[i].caller) ==> SawCtxEnd(p.ops[i].caller)
  {
    PS.AwaitChanges(p, i);
    AwaitChangeSees(p.ops[i], P.AwaitStep(p, i).ops[i]);
  }

  lemma ReleaseSees(p: P.State, i: nat)
    requires i in p.ops && P.CallEnabled(p.ops[i]) && !P.Awaiting(p.ops[i].caller) && !p.ops[i].caller.Claiming?
    requires i in P.ReleaseStep(p, i).ops
    ensures SawCtxEnd(P.ReleaseStep(p, i).ops[i].caller) ==> SawCtxEnd(p.ops[i].caller)
  {
  }

  lemma SpawnSees(p: P.State, i: nat)
    requires P.SpawnEnabled(p, i) && i in P.SpawnStep(p, i).ops
    ensures SawCtxEnd(P.SpawnStep(p, i).ops[i].caller) ==> SawCtxEnd(p.ops[i].caller)
  {
    var s' := P.SpawnStep(p, i);
    match p.ops[i].spawner
    case Reserved => assert s'.ops[i].caller == p.ops[i].caller;
    case Published => assert s'.ops[i].caller == p.ops[i].caller;
    case TaskSpawned => assert s'.ops[i].caller == p.ops[i].caller;
    case AbortStored => assert s'.ops[i].caller == p.ops[i].caller;
    case Rechecked => assert s'.ops[i].caller == P.Started;
    case ReadyStored => assert s'.ops[i].caller == p.ops[i].caller;
    case ReadyPushed => assert s'.ops[i].caller == P.Started;
  }

  lemma TaskSees(p: P.State, step: P.Step)
    requires P.Enabled(p, step)
    requires step.TaskFinish? || step.TaskProduce? || step.TaskStop? || step.TaskPanic? || step.Supervise?
    requires step.op in P.Apply(p, step).ops
    ensures P.Apply(p, step).ops[step.op].caller == p.ops[step.op].caller
  {
    match step
    case TaskFinish(j, r) =>
    case TaskProduce(j) => ProduceSees(p, j);
    case TaskStop(j) =>
    case TaskPanic(j) =>
    case Supervise(j) => SuperviseSees(p, j);
  }

  lemma ProduceSees(p: P.State, i: nat)
    requires i in p.ops && P.ProduceEnabled(p.ops[i]) && i in P.ProduceStep(p, i).ops
    ensures P.ProduceStep(p, i).ops[i].caller == p.ops[i].caller
  {
    PS.ProduceMovesTask(p, i);
  }

  lemma SuperviseSees(p: P.State, i: nat)
    requires i in p.ops && P.SuperviseEnabled(p.ops[i]) && i in P.SuperviseStep(p, i).ops
    ensures P.SuperviseStep(p, i).ops[i].caller == p.ops[i].caller
  {
    match p.ops[i].sup
    case Joining =>
    case Storing =>
    case Pushing =>
  }

  lemma OtherSees(p: P.State, step: P.Step)
    requires P.Enabled(p, step)
    requires step.SpawnReady? || step.OutsideFetch? || step.OutsideFlag? || step.OutsideAbort? || step.Drop?
    requires step.op in P.Apply(p, step).ops
    ensures P.Apply(p, step).ops[step.op].caller == p.ops[step.op].caller
  {
    match step
    case SpawnReady(j, k) =>
    case OutsideFetch(j) =>
    case OutsideFlag(j) =>
    case OutsideAbort(j) =>
    case Drop(j) =>
  }

  lemma PumpSees(p: P.State, i: nat)
    requires P.PumpEnabled(p) && i in p.ops && i in P.PumpStep(p).ops
    ensures P.PumpStep(p).ops[i].caller == p.ops[i].caller
  {
  }

  /** Only the select on the context makes the goroutine see it end. */
  lemma {:induction false} OnlyCtxDoneSees(p: P.State, step: P.Step, i: nat)
    requires PI.Inv(p) && P.Enabled(p, step) && i in p.ops && i in P.Apply(p, step).ops && step != P.CtxDone(i)
    ensures SawCtxEnd(P.Apply(p, step).ops[i].caller) ==> SawCtxEnd(p.ops[i].caller)
  {
    if i != PT.Actor(p, step) {
      PT.OthersKeep(p, step, i);
    } else if step.Call? {
      CallSees(p, i);
    } else if step.Spawn? {
      SpawnSees(p, i);
    } else if step.Pump? {
      PumpSees(p, i);
    } else if step.TaskFinish? || step.TaskProduce? || step.TaskStop? || step.TaskPanic? || step.Supervise? {
      TaskSees(p, step);
    } else if !step.GoFree? && !step.CtxDone? && !step.Reserve? {
      OtherSees(p, step);
    }
  }

  lemma DoneIsReturned(p: P.State, i: nat)
    requires PI.Inv(p) && i in p.ops
    ensures p.ops[i].caller.Done? <==> PT.Abstract(p.ops[i]).Returned?
    ensures PT.Abstract(p.ops[i]).Returned? ==> PT.Abstract(p.ops[i]).ret == p.ops[i].caller.ret
  {
    assert PI.OpInv(p, i, p.ops[i]) && PI.CallerInv(p.ops[i]);
  }

  /** What one step of the protocol means for the operation. */
  lemma {:induction false} StepFacts(p: P.State, step: P.Step, i: nat)
    requires PI.Inv(p) && PT.AllAlone(p) && P.Enabled(p, step) && !step.OutsideFetch? && i in p.ops
    ensures i in P.Apply(p, step).ops
    ensures var o, o' := p.ops[i], P.Apply(p, step).ops[i];
            && PT.AbsNext(PT.Abstract(o), PT.Abstract(o'))
            && (PT.Abstract(o') == PT.Landed(Err(Cancelled)) ==> PI.CtxHasEnded(o'.caller))
            && o'.caller != P.Done(Failed(Cancelled))
            && (step != P.CtxDone(i) && SawCtxEnd(o'.caller) ==> SawCtxEnd(o.caller))
            && (o.caller.Done? <==> PT.Abstract(o).Returned?) && (o'.caller.Done? <==> PT.Abstract(o').Returned?)
            && (PT.Abstract(o').Returned? ==> PT.Abstract(o').ret == o'.caller.ret)
  {
    PT.RefinesAtomicCall(p, step, i);
    PT.StepKeeps(p, step);
    PT.StepAlone(p, step);
    PT.StopIsOwn(P.Apply(p, step), i);
    if step != P.CtxDone(i) { OnlyCtxDoneSees(p, step, i); }
    DoneIsReturned(p, i);
    DoneIsReturned(P.Apply(p, step), i);
  }

  /** A move of the protocol is a legal step of the half, or none, and the two stay linked. */
  lemma {:induction false} ProtoSimulates(p: P.State, h: S.State, i: nat, c: nat, m: Move)
    requires PI.Inv(p) && PT.AllAlone(p) && Linked(p, h, i, c) && m.Proto? && Allowed(p, h, i, c, m)
    ensures var steps := Half(p, i, c, m);
            S.Legal(h, steps) && Linked(NextP(p, m), NextH(h, steps), i, c)
  {
    var p' := P.Apply(p, m.step);
    StepFacts(p, m.step, i);
    var a, b := PT.Abstract(p.ops[i]), PT.Abstract(p'.ops[i]);
    if a.Issued? && b.Landed? {
      var step := if b.out == Err(Cancelled) then S.LandStop(c) else m.land;
      LandsLinked(h, c, step, b.out);
      OneStep(h, step);
    } else if a.Landed? && b.Returned? {
      ReturnFits(h, c, b.ret);
      OneStep(h, S.Return(c, b.ret));
    }
  }

  lemma OneStep(h: S.State, step: S.Step)
    requires S.Enabled(h, step)
    ensures S.Legal(h, [step]) && S.Exec(h, [step]) == S.Apply(h, step)
  {
    assert [step][1..] == [];
  }

  lemma {:induction false} LandsLinked(h: S.State, c: nat, step: S.Step, out: Outcome)
    requires S.Enabled(h, step) && SS.IsLanding(step) && step.c == c && OutcomeOf(h.half, step) == out
    ensures var h' := S.Apply(h, step);
            InOp(h', c) && h'.callers[c].op.Landed? && h'.callers[c].op.out == out
            && (CtxEnded(h, c) ==> CtxEnded(h', c))
  {
    match step
    case LandMove(_, chunk) =>
    case LandEof(_) =>
    case LandFail(_, k) =>
    case LandStop(_) =>
    case LandGone(_) =>
  }

  lemma ReturnFits(h: S.State, c: nat, ret: Ret)
    requires InOp(h, c) && h.callers[c].op.Landed? && RetFits(h.callers[c].op.out, ret)
    requires ret != Failed(Cancelled) && (ret == Ret.CtxErr ==> CtxEnded(h, c))
    ensures S.Enabled(h, S.Return(c, ret))
  {
  }

  // ---- a step of the half alone -----------------------------------------------------------------

  /** The call keeps its outstanding operation, which at most joins the stream's queue, and a
      context that has ended stays so. */
  predicate CallKept(h: S.State, h': S.State, c: nat) {
    && c in h.callers && c in h'.callers
    && (h'.callers[c] == h.callers[c]
        || (h.callers[c].op.Issued? && h'.callers[c] == h.callers[c].(op := S.Queued)))
    && (CtxEnded(h, c) ==> CtxEnded(h', c))
  }

  lemma LandingAlone(h: S.State, step: S.Step, c: nat)
    requires S.Enabled(h, step) && SS.IsLanding(step) && step.c != c && c in h.callers
    ensures CallKept(h, S.Apply(h, step), c)
  {
    match step
    case LandMove(_, chunk) =>
    case LandEof(_) =>
    case LandFail(_, k) =>
    case LandStop(_) =>
    case LandGone(_) =>
  }

  lemma ClosingAlone(h: S.State, step: S.Step, c: nat)
    requires S.Enabled(h, step) && SS.IsClosing(step) && c in h.callers
    ensures CallKept(h, S.Apply(h, step), c)
  {
    match step
    case NewClose(x, conn, order) =>
    case CloseStep(x) =>
    case CloseLand(x) =>
    case CloseAbandon(x) =>
  }

  lemma TimingAlone(h: S.State, step: S.Step, c: nat)
    requires S.Enabled(h, step) && SS.IsTiming(step) && c in h.callers
    ensures CallKept(h, S.Apply(h, step), c)
  {
    match step
    case SetDeadline(d) =>
    case SetCancel(k, r) =>
    case Expire(r) =>
    case Tick =>
  }

  lemma CallingAlone(h: S.State, step: S.Step, c: nat)
    requires SI.Inv(h) && S.Enabled(h, step) && SS.IsCalling(step) && InOp(h, c)
    requires step.Return? ==> step.c != c
    ensures CallKept(h, S.Apply(h, step), c)
  {
    SS.Known(h, c);
    assert SI.CtxInv(h, h.callers[c].reg);
    match step
    case NewCall(j, q, v) =>
    case Arm(j) =>
    case GetHandle(j) =>
    case Lock(j) =>
    case Issue(j) =>
    case Enqueue(j) =>
    case Return(j, ret) =>
    case Release(j) =>
  }

  lemma {:induction false} AloneKeepsLink(p: P.State, h: S.State, i: nat, c: nat, m: Move)
    requires SI.Inv(h) && PI.Inv(p) && Linked(p, h, i, c) && m.Alone? && Allowed(p, h, i, c, m)
    ensures S.Legal(h, [m.half]) && Linked(p, NextH(h, [m.half]), i, c)
  {
    OneStep(h, m.half);
    DoneIsReturned(p, i);
    if !PT.Abstract(p.ops[i]).Returned? {
      if SS.IsLanding(m.half) { LandingAlone(h, m.half, c); }
      else if SS.IsClosing(m.half) { ClosingAlone(h, m.half, c); }
      else if SS.IsTiming(m.half) { TimingAlone(h, m.half, c); }
      else { CallingAlone(h, m.half, c); }
    }
  }

  // ---- whole runs -------------------------------------------------------------------------------

  lemma {:induction false} LegalConcat(h: S.State, a: seq<S.Step>, b: seq<S.Step>)
    requires S.Legal(h, a) && S.Legal(S.Exec(h, a), b)
    ensures S.Legal(h, a + b) && S.Exec(h, a + b) == S.Exec(S.Exec(h, a), b)
    decreases |a|
  {
    if a == [] {
      assert a + b == b;
    } else {
      assert (a + b)[0] == a[0] && (a + b)[1..] == a[1..] + b;
      LegalConcat(S.Apply(h, a[0]), a[1..], b);
    }
  }

  /** The simulation. Let an operation be linked to a call of the half, in any reachable state
      of either, and let the two machines run together in any interleaving. Then everything
      the half is made to do is a legal run of its own machine: each landing of the call, each
      stop and each return is a step of the protocol that the half allows. So what is proved
      of every run of the half holds of the composed system. */
  lemma {:induction false} ProtocolDrivesHalf(p: P.State, h: S.State, i: nat, c: nat, ms: seq<Move>)
    requires PI.Inv(p) && PT.AllAlone(p) && SI.Inv(h) && Linked(p, h, i, c) && Joint(p, h, i, c, ms)
    ensures S.Legal(h, HalfRun(p, h, i, c, ms)) && SI.Inv(S.Exec(h, HalfRun(p, h, i, c, ms)))
    decreases |ms|
  {
    if ms != [] {
      var m := ms[0];
      var steps := Half(p, i, c, m);
      if m.Proto? {
        ProtoSimulates(p, h, i, c, m);
        PT.StepKeeps(p, m.step);
        PT.StepAlone(p, m.step);
      } else {
        AloneKeepsLink(p, h, i, c, m);
      }
      SS.RunKeeps(h, steps);
      ProtocolDrivesHalf(NextP(p, m), NextH(h, steps), i, c, ms[1..]);
      LegalConcat(h, steps, HalfRun(NextP(p, m), NextH(h, steps), i, c, ms[1..]));
    } else {
      assert S.Exec(h, []) == h;
    }
  }
}
