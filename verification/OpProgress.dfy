/** Every await ends: the protocol's own steps are bounded, and it is only ever stuck on a
    peer that has not answered an operation nobody cancelled. */
module OpProgress {
  import opened Common
  import opened OpTypes
  import opened PumpTables
  import opened OpProtocol
  import opened OpInvariant
  import opened OpSteps
  import opened OpTheorems

  // ---- a rank every step but a new call lowers --------------------------------

  function SpawnRank(p: SpawnPc): nat {
    match p
    case Reserved => 7
    case Published => 6
    case TaskSpawned => 5
    case AbortStored => 4
    case Rechecked => 3
    case ReadyStored => 2
    case ReadyPushed => 1
    case Returned => 0
  }

  function TaskRank(t: Task): nat {
    match t
    case NotStarted => 6
    case Running => 5
    case Producing(made) => if |made| <= 2 then 4 - |made| else 1
    case _ => 0
  }

  function SupRank(p: SupPc): nat {
    match p
    case NoSup => 4
    case Joining => 3
    case Storing => 2
    case Pushing => 1
    case SupGone => 0
  }

  function CallRank(p: CallPc): nat {
    match p
    case NoCall => 10
    case Started => 9
    case Waiting => 8
    case CancelFetched => 7
    case CancelFlagged => 6
    case Draining => 5
    case Claiming(_) => 4
    case ErrTaken(_) => 3
    case RefusedTaken(_) => 3
    case ErrRead(_) => 2
    case ResultTaken(_) => 2
    case RefusedFreed(_) => 2
    case Abandoning => 1
    case Done(_) => 0
  }

  function LocalRank(o: OpRec): nat {
    SpawnRank(o.spawner) + TaskRank(o.task) + SupRank(o.sup) + CallRank(o.caller)
    + 2 * o.xFetched + o.xFlagged + Ind(!o.dropped)
  }

  function PumpRank(s: State, i: nat): nat {
    3 * Count(s.queue, i) + (if s.pump.Idle? || s.pump.op != i then 0 else if s.pump.Popped? then 2 else 1)
  }

  /** How many steps the operation can still take part in. */
  function Rank(s: State, i: nat): nat {
    if i in s.ops
    then LocalRank(s.ops[i]) + 3 * Ind(!Pushed(s.ops[i])) + PumpRank(s, i)
    else 0
  }

  /** Steps that bring new work: a new operation, a new outside cancel, a free by Go. */
  predicate Opens(step: Step) {
    step.Reserve? || step.OutsideFetch? || step.GoFree?
  }

  /** The operation a step moves forward. */
  function Mover(s: State, step: Step): nat
    requires Enabled(s, step)
  {
    match step
    case Pump => if s.pump.Idle? then s.queue[0].0 else s.pump.op
    case Reserve(_) => 0
    case GoFree(_) => 0
    case _ => step.op
  }

  lemma PumpMoves(s: State)
    requires Inv(s) && PumpEnabled(s)
    ensures var i := Mover(s, Pump);
            && i in s.ops && PumpStep(s).ops.Keys == s.ops.Keys
            && Rank(PumpStep(s), i) < Rank(s, i)
            && forall j :: j != i ==> Rank(PumpStep(s), j) == Rank(s, j)
  {
    var i := Mover(s, Pump);
    if s.pump.Idle? {
      assert StatusInv(s, s.queue[0].0, s.queue[0].1);
    } else {
      assert StatusInv(s, s.pump.op, s.pump.st);
    }
  }

  /** A step that changes the record of `i` and neither queue nor pump. */
  ghost predicate OnlyRecord(s: State, s': State, i: nat) {
    && i in s.ops && i in s'.ops && s'.ops == s.ops[i := s'.ops[i]]
    && s'.queue == s.queue && s'.pump == s.pump
  }

  /** The caller's own steps leave spawner, task, supervisor and outsiders alone. */
  predicate CallMoves(o: OpRec, o': OpRec) {
    && o'.spawner == o.spawner && o'.task == o.task && o'.sup == o.sup
    && o'.xFetched == o.xFetched && o'.xFlagged == o.xFlagged && o'.dropped == o.dropped
    && CallRank(o'.caller) < CallRank(o.caller)
  }

  lemma CallTouchesRecord(s: State, i: nat)
    requires i in s.ops && CallEnabled(s.ops[i])
    ensures OnlyRecord(s, CallStep(s, i), i)
  {
    if s.ops[i].caller.Claiming? { ClaimTouchesRecord(s, i, s.ops[i].caller.st); }
  }

  lemma ClaimTouchesRecord(s: State, i: nat, st: Status)
    requires i in s.ops && s.ops[i].caller == Claiming(st)
    ensures OnlyRecord(s, ClaimStep(s, i, st), i)
  {
  }

  lemma CallRankFalls(s: State, i: nat)
    requires i in s.ops && CallEnabled(s.ops[i]) && i in CallStep(s, i).ops
    ensures CallMoves(s.ops[i], CallStep(s, i).ops[i])
  {
    if s.ops[i].caller.Claiming? {
      ClaimTouchesRecord(s, i, s.ops[i].caller.st);
      ClaimRankFalls(s, i, s.ops[i].caller.st);
    } else if Awaiting(s.ops[i].caller) {
      AwaitFalls(s, i);
    } else {
      ReleaseFalls(s, i);
    }
  }

  lemma AwaitLowers(o: OpRec, o': OpRec)
    requires AwaitChange(o, o')
    ensures CallMoves(o, o')
  {
  }

  lemma AwaitFalls(s: State, i: nat)
    requires i in s.ops && CallEnabled(s.ops[i]) && Awaiting(s.ops[i].caller)
    ensures i in AwaitStep(s, i).ops && CallMoves(s.ops[i], AwaitStep(s, i).ops[i])
  {
    AwaitChanges(s, i);
    AwaitLowers(s.ops[i], AwaitStep(s, i).ops[i]);
  }

  lemma ReleaseFalls(s: State, i: nat)
    requires i in s.ops && CallEnabled(s.ops[i]) && !Awaiting(s.ops[i].caller) && !s.ops[i].caller.Claiming?
    ensures i in ReleaseStep(s, i).ops && CallMoves(s.ops[i], ReleaseStep(s, i).ops[i])
  {
  }

  lemma ClaimRankFalls(s: State, i: nat, st: Status)
    requires i in s.ops && s.ops[i].caller == Claiming(st) && i in ClaimStep(s, i, st).ops
    ensures CallMoves(s.ops[i], ClaimStep(s, i, st).ops[i])
  {
    var o := s.ops[i];
    if st != StOk {
      FailedClaimFalls(s, i, st);
    } else if !o.await.AUnit? {
      HandOverFalls(s, i, AfterTake(s, i, o), Claim(o.await, TakeOutcome(s, i, o)));
    }
  }

  lemma FailedClaimFalls(s: State, i: nat, st: Status)
    requires i in s.ops && s.ops[i].caller == Claiming(st) && st != StOk
    ensures i in ClaimStep(s, i, st).ops && CallMoves(s.ops[i], ClaimStep(s, i, st).ops[i])
  {
  }

  lemma HandOverFalls(s: State, i: nat, o': OpRec, c: Outcome)
    requires i in s.ops && s.ops[i].caller == Claiming(StOk)
    requires o' == s.ops[i].(result := o'.result, claimed := o'.claimed)
    ensures i in HandOver(s, i, o', c).ops
    ensures CallMoves(s.ops[i], HandOver(s, i, o', c).ops[i])
  {
    match c
    case Err(k) => assert HandOver(s, i, o', c).ops[i] == o'.(caller := RefusedTaken(s.next));
    case Ok(v) => assert HandOver(s, i, o', c).ops[i] == o'.(caller := ResultTaken(v));
  }

  /** Steps other than the pump's change one record and at most push that one's completion. */
  ghost predicate Moves(s: State, s': State, i: nat) {
    && i in s.ops && i in s'.ops && s'.ops == s.ops[i := s'.ops[i]] && s'.pump == s.pump
    && LocalRank(s'.ops[i]) < LocalRank(s.ops[i])
    && (|| (s'.queue == s.queue && Pushed(s'.ops[i]) == Pushed(s.ops[i]))
        || (!Pushed(s.ops[i]) && Pushed(s'.ops[i])
            && exists st :: s'.queue == s.queue + [(i, st)]))
  }

  lemma MovesRank(s: State, s': State, i: nat)
    requires Moves(s, s', i)
    ensures s'.ops.Keys == s.ops.Keys && Rank(s', i) < Rank(s, i)
    ensures forall j :: j != i ==> Rank(s', j) == Rank(s, j)
  {
    if s'.queue != s.queue {
      var st :| s'.queue == s.queue + [(i, st)];
      forall j ensures Count(s'.queue, j) == Count(s.queue, j) + Ind(i == j) {
        CountAppend(s.queue, (i, st), j);
      }
    }
  }

  lemma SpawnMoves(s: State, i: nat)
    requires SpawnEnabled(s, i) && SpawnInv(s.ops[i])
    ensures Moves(s, SpawnStep(s, i), i)
  {
  }

  lemma SuperviseMoves(s: State, i: nat)
    requires i in s.ops && SuperviseEnabled(s.ops[i]) && SpawnInv(s.ops[i])
    ensures Moves(s, SuperviseStep(s, i), i)
  {
  }

  lemma TaskMoves(s: State, step: Step)
    requires Enabled(s, step) && (step.TaskFinish? || step.TaskStop? || step.TaskPanic?)
    ensures Moves(s, Apply(s, step), step.op)
  {
  }

  lemma ProduceMoves(s: State, i: nat)
    requires i in s.ops && ProduceEnabled(s.ops[i])
    ensures Moves(s, ProduceStep(s, i), i)
  {
    ProduceMovesTask(s, i);
    var o := s.ops[i];
    assert TaskRank(ProduceStep(s, i).ops[i].task) < TaskRank(o.task);
  }

  lemma SideMoves(s: State, step: Step)
    requires Enabled(s, step)
    requires step.SpawnReady? || step.OutsideFlag? || step.OutsideAbort? || step.CtxDone? || step.Drop?
    requires step.op in s.ops && SpawnInv(s.ops[step.op]) && OutcomeInv(s.ops[step.op])
    ensures Moves(s, Apply(s, step), step.op)
  {
  }

  /** Each step lowers the rank of exactly one operation. */
  lemma {:induction false} StepLowersRank(s: State, step: Step)
    requires Inv(s) && Enabled(s, step) && !Opens(step)
    ensures var i, s' := Mover(s, step), Apply(s, step);
            && i in s.ops && s'.ops.Keys == s.ops.Keys
            && Rank(s', i) < Rank(s, i)
            && forall j :: j != i ==> Rank(s', j) == Rank(s, j)
  {
    if step.Pump? {
      PumpMoves(s);
    } else {
      var i := step.op;
      assert OpInv(s, i, s.ops[i]) && SpawnInv(s.ops[i]) && OutcomeInv(s.ops[i]);
      if step.Call? {
        CallTouchesRecord(s, i);
        CallRankFalls(s, i);
      } else if step.Spawn? {
        SpawnMoves(s, i);
      } else if step.Supervise? {
        SuperviseMoves(s, i);
      } else if step.TaskProduce? {
        ProduceMoves(s, i);
      } else if step.TaskFinish? || step.TaskStop? || step.TaskPanic? {
        TaskMoves(s, step);
      } else {
        SideMoves(s, step);
      }
      MovesRank(s, Apply(s, step), i);
    }
  }

  /** The rank of all operations with ids below `n`. */
  function TotalRank(s: State, n: nat): nat {
    if n == 0 then 0 else TotalRank(s, n - 1) + Rank(s, n - 1)
  }

  lemma {:induction false} TotalFalls(s: State, s': State, i: nat, n: nat)
    requires Rank(s', i) < Rank(s, i) && forall j :: j != i ==> Rank(s', j) == Rank(s, j)
    ensures if i < n then TotalRank(s', n) < TotalRank(s, n) else TotalRank(s', n) == TotalRank(s, n)
  {
    if n > 0 { TotalFalls(s, s', i, n - 1); }
  }

  /** Without new work the protocol takes a bounded number of steps, however they
      interleave: nothing loops, drains or waits for ever. */
  lemma {:induction false} RunsAreBounded(s: State, run: seq<Step>, n: nat)
    requires Inv(s) && Legal(s, run) && forall k :: 0 <= k < |run| ==> !Opens(run[k])
    requires forall i :: i in s.ops ==> i < n
    ensures |run| <= TotalRank(s, n)
    decreases |run|
  {
    if run != [] {
      var s' := Apply(s, run[0]);
      StepLowersRank(s, run[0]);
      TotalFalls(s, s', Mover(s, run[0]), n);
      StepKeeps(s, run[0]);
      forall k | 0 <= k < |run[1..]| ensures !Opens(run[1..][k]) { assert run[1..][k] == run[k + 1]; }
      RunsAreBounded(s', run[1..], n);
    }
  }

  // ---- progress ---------------------------------------------------------------

  /** Steps the library, the pump and the goroutines take by themselves, without a peer
      answering and without a context ending. */
  predicate Own(s: State, step: Step) {
    match step
    case Spawn(_) => true
    case TaskStop(_) => true
    case TaskProduce(i) => i in s.ops && s.ops[i].task.Producing?
    case Supervise(_) => true
    case OutsideFlag(_) => true
    case OutsideAbort(_) => true
    case Call(_) => true
    case Pump => true
    case Drop(_) => true
    case _ => false
  }

  ghost predicate Stuck(s: State) {
    forall step :: Own(s, step) ==> !Enabled(s, step)
  }

  /** The operation waits for its peer, and nobody has asked it to stop. */
  predicate AwaitsPeer(o: OpRec) {
    o.task.Running? && !o.aborted && o.caller.Waiting?
  }

  lemma StuckPump(s: State)
    requires Inv(s) && Stuck(s)
    ensures s.pump.Idle? && s.queue == []
  {
    assert Own(s, Pump);
    if s.pump.Sending? { SendKeeps(s); }
  }

  lemma StuckCaller(s: State, i: nat)
    requires Inv(s) && Stuck(s) && i in s.ops && !s.ops[i].caller.Done?
    ensures s.ops[i].spawner.Returned? && Parked(s.ops[i]) && s.ops[i].chan.None?
    ensures s.ops[i].caller.Waiting? || s.ops[i].caller.Draining?
    ensures !Pushed(s.ops[i])
  {
    var o := s.ops[i];
    StuckPump(s);
    assert OpInv(s, i, o) && SpawnInv(o);
    assert Own(s, Spawn(i)) && Own(s, Call(i));
    assert TokenInv(s, i, o);
  }

  /** The protocol is only ever stuck on an unanswered, uncancelled operation: in every
      state where none of its own steps is enabled, each operation is either finished and
      released, or waits for a peer with its caller parked in the first select. */
  lemma {:induction false} OnlyPeersBlock(s: State, i: nat)
    requires Inv(s) && Stuck(s) && i in s.ops
    ensures var o := s.ops[i]; (o.caller.Done? && o.dropped) || AwaitsPeer(o)
  {
    var o := s.ops[i];
    assert OpInv(s, i, o) && SpawnInv(o) && OutcomeInv(o) && CancelInv(o) && CallerInv(o);
    assert Own(s, Supervise(i)) && Own(s, OutsideFlag(i)) && Own(s, OutsideAbort(i)) && Own(s, Drop(i));
    if o.caller.Done? {
      assert LiveInv(s, i, o);
    } else {
      StuckCaller(s, i);
      assert o.sup.Joining?;
      assert Own(s, TaskStop(i));
      assert o.task.Producing? ==> Own(s, TaskProduce(i));
    }
  }

  /** A run that can go no further, and waits for no peer, has returned every call and left
      the registry with Go's handles only. */
  lemma AnsweredRunsLeaveNothing(run: seq<Step>)
    requires Legal(INIT, run) && Stuck(Exec(INIT, run))
    requires forall i :: i in Exec(INIT, run).ops ==> !AwaitsPeer(Exec(INIT, run).ops[i])
    ensures var s := Exec(INIT, run);
            && Settled(s) && s.objs.Keys == s.go && Pending(s.tables) == 0
  {
    var s := Exec(INIT, run);
    InitInv();
    RunKeeps(INIT, run);
    forall i | i in s.ops ensures s.ops[i].caller.Done? && s.ops[i].dropped {
      OnlyPeersBlock(s, i);
    }
    NothingLeaks(run);
    PendingOpsDrains(run);
  }
}
