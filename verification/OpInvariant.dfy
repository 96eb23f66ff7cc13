/** The inductive invariant of the operation protocol. */
module OpInvariant {
  import opened Common
  import opened OpTypes
  import opened PumpTables
  import opened OpProtocol

  // ---- where things are -----------------------------------------------------

  /** How often an operation occurs in the completion queue. */
  function Count(q: seq<(nat, Status)>, i: nat): nat {
    if q == [] then 0 else Ind(q[0].0 == i) + Count(q[1..], i)
  }

  /** The completion has been pushed (at some time in the past). */
  predicate Pushed(o: OpRec) {
    o.sup.Pushing? || o.sup.SupGone? || o.spawner.ReadyPushed? || (o.spawner.Returned? && o.sup.NoSup?)
  }

  predicate InPumpHand(s: State, i: nat) {
    (s.pump.Popped? || s.pump.Sending?) && s.pump.op == i
  }

  /** The caller is registered and has not yet received its status. */
  predicate Parked(o: OpRec) {
    o.caller.Waiting? || o.caller.CancelFetched? || o.caller.CancelFlagged? || o.caller.Draining?
  }

  predicate NotYetRegistered(o: OpRec) {
    o.caller.NoCall? || o.caller.Started?
  }

  /** The caller has received its status. */
  predicate Received(o: OpRec) {
    !NotYetRegistered(o) && !Parked(o)
  }

  /** All the places the one completion of `i` can be. */
  function Tokens(s: State, i: nat, o: OpRec): nat {
    Count(s.queue, i) + Ind(InPumpHand(s, i)) + Ind(i in s.tables.unclaimed)
    + Ind(o.chan.Some?) + Ind(Received(o))
  }

  /** Registry handles the operation itself owns: in its future or in its result slot. */
  function Held(o: OpRec): set<nat> {
    (match o.task
     case Producing(made) => set h | h in made
     case Finished(out) => if o.posted.None? then OutcomeHandles(out) else {}
     case _ => {})
    + (if o.result.Some? then OutcomeHandles(o.result.value) else {})
  }

  // ---- per-operation invariants ---------------------------------------------

  predicate SpawnInv(o: OpRec) {
    && (o.caller.NoCall? <==> !o.spawner.Returned?)
    && match o.spawner
       case Reserved => o.task.NotStarted? && o.sup.NoSup? && o.posted.None? && !o.abortStored
       case Published => o.task.NotStarted? && o.sup.NoSup? && o.posted.None? && !o.abortStored
       case ReadyStored => o.task.NotStarted? && o.sup.NoSup? && o.posted.Some? && o.posted.value.Err?
       case ReadyPushed => o.task.NotStarted? && o.sup.NoSup? && o.posted.Some? && o.posted.value.Err?
       case TaskSpawned => !o.task.NotStarted? && o.sup.NoSup? && o.posted.None? && !o.abortStored
       case AbortStored => !o.task.NotStarted? && o.sup.NoSup? && o.posted.None? && o.abortStored
       case Rechecked => !o.task.NotStarted? && o.sup.NoSup? && o.posted.None? && o.abortStored
       case Returned =>
         if o.task.NotStarted? then o.sup.NoSup? && o.posted.Some? && o.posted.value.Err?
         else !o.sup.NoSup? && o.abortStored
  }

  predicate OutcomeInv(o: OpRec) {
    && (o.sup.Joining? ==> o.posted.None?)
    && (!o.sup.NoSup? && !o.sup.Joining? ==> Terminal(o.task) && o.posted == Some(JoinOutcome(o.task)))
    && (o.posted.Some? ==> WellTyped(o.await, o.posted.value))
    && (o.task.Finished? ==> WellTyped(o.await, o.task.out)
                             && (o.task.out.Err? ==> o.task.out.error != Cancelled))
    && (o.task.Producing? ==> |o.task.made| <= HandlesNeeded(o.await)
                              && (|o.task.made| == 2 ==> o.task.made[0] != o.task.made[1])
                              && HandlesNeeded(o.await) > 0)
    && (o.task.NotStarted? && o.posted.Some? ==> o.posted.value.Err? && o.posted.value.error != Cancelled)
  }

  /** The caller has acted on a finished context. */
  predicate CtxHasEnded(c: CallPc) {
    c.CancelFlagged? || c.Draining? || c.Abandoning? || c == Done(CtxErr)
  }

  predicate CancelInv(o: OpRec) {
    && (o.task.Stopped? ==> o.aborted)
    && (o.aborted ==> o.cancelRequested)
    && (o.xFlagged > 0 || CtxHasEnded(o.caller) ==> o.cancelRequested)
    // No lost cancel: either the abort is sent, or a canceller or the spawner still owes it.
    && (o.cancelRequested && (o.spawner.Rechecked? || (o.spawner.Returned? && !o.task.NotStarted?))
        ==> o.aborted || o.xFlagged > 0 || o.caller.CancelFlagged?)
  }

  predicate ResultInv(o: OpRec) {
    && (if o.claimed || o.dropped then o.result.None? else o.result == o.posted)
    && (o.claimed ==> o.caller.ErrTaken? || o.caller.ErrRead? || o.caller.ResultTaken? || o.caller.Done?)
    && (o.caller.ErrTaken? || o.caller.ErrRead? || o.caller.ResultTaken? ==> o.claimed)
    && (o.dropped ==> o.caller.Done?)
    && (o.claimed ==> o.posted.Some?)
  }

  /** What the caller knows agrees with what was posted. */
  predicate CallerInv(o: OpRec) {
    && (Received(o) || o.chan.Some? ==> o.posted.Some?)
    && (o.chan.Some? ==> o.chan.value == StatusOf(o.posted.value))
    && match o.caller
       case Claiming(st) => st == StatusOf(o.posted.value)
       case ErrTaken(_) => o.posted.value.Err?
       case ErrRead(k) => o.posted.value == Err(k)
       case ResultTaken(v) => o.posted.value == Ok(v)
       case RefusedTaken(_) => false
       case RefusedFreed(_) => false
       case Abandoning => o.posted.value.Err?
       case Done(ret) =>
         (match ret
          case Value(v) => o.posted.value == Ok(v)
          case Failed(k) => o.posted.value == Err(k)
          case CtxErr => o.posted.value.Err?)
       case _ => true
  }

  predicate Local(o: OpRec) {
    SpawnInv(o) && OutcomeInv(o) && CancelInv(o) && ResultInv(o) && CallerInv(o)
  }

  /** Where the completion of `i` is, and whether its caller is in the waiter table. */
  predicate TokenInv(s: State, i: nat, o: OpRec) {
    && Tokens(s, i, o) == Ind(Pushed(o))
    && Ind(i in s.tables.waiters) + Ind(s.pump.Sending? && s.pump.op == i) + Ind(o.chan.Some?) == Ind(Parked(o))
    && (i in s.tables.unclaimed ==> NotYetRegistered(o))
  }

  /** The handle of `i` resolves to the operation from publish until the caller frees it. */
  predicate LiveInv(s: State, i: nat, o: OpRec) {
    && (i in s.objs <==> !o.spawner.Reserved? && !o.caller.Done?)
    && (i in s.objs ==> s.objs[i].OpObj?)
    && (o.dropped ==> NoRefs(s, i, o))
  }

  /** The handle resolves to something the future of `i` inserted. */
  predicate MadeBy(s: State, h: nat, i: nat) {
    h in s.objs && s.objs[h].ResObj? && s.objs[h].maker == i
  }

  predicate HeldInv(s: State, i: nat, o: OpRec) {
    forall h :: h in Held(o) ==> MadeBy(s, h, i) && h !in s.everGo
  }

  predicate ErrInv(s: State, i: nat, o: OpRec) {
    o.caller.ErrTaken? ==>
      && 0 < o.caller.errh
      && o.caller.errh in s.objs
      && s.objs[o.caller.errh].ErrObj?
      && s.objs[o.caller.errh].op == i
      && o.posted == Some(Err(s.objs[o.caller.errh].kind))
  }

  predicate OpInv(s: State, i: nat, o: OpRec) {
    Local(o) && TokenInv(s, i, o) && LiveInv(s, i, o) && HeldInv(s, i, o) && ErrInv(s, i, o)
  }

  // ---- global invariants ----------------------------------------------------

  predicate StatusInv(s: State, i: nat, st: Status) {
    i in s.ops && s.ops[i].posted.Some? && st == StatusOf(s.ops[i].posted.value)
  }

  predicate ObjInv(s: State, h: nat) {
    h in s.objs ==>
      && 0 < h < s.next
      && match s.objs[h]
         case OpObj => h in s.ops
         case ErrObj(_, m) => m in s.ops && s.ops[m].caller == ErrTaken(h)
         case ResObj(m, _) => h !in s.ops && m in s.ops && (h in s.go || h in Held(s.ops[m]))
  }

  predicate GoInv(s: State, h: nat) {
    && (h in s.go ==> h in s.everGo && h in s.objs)
    && (h in s.everGo ==> 0 < h < s.next && h !in s.ops
                          && (h in s.objs ==> s.objs[h].ResObj? && h in s.go))
  }

  /** Every completion in flight carries the status of what was posted. */
  ghost predicate TokenGlobals(s: State) {
    && (forall k :: 0 <= k < |s.queue| ==> StatusInv(s, s.queue[k].0, s.queue[k].1))
    && (!s.pump.Idle? ==> StatusInv(s, s.pump.op, s.pump.st))
    && (forall i :: i in s.tables.unclaimed ==> StatusInv(s, i, s.tables.unclaimed[i]))
    && (forall i :: i in s.tables.waiters ==> i in s.ops)
  }

  /** Every registry entry is accounted for. */
  ghost predicate ObjGlobals(s: State) {
    && 0 < s.next
    && (forall i :: i in s.ops ==> 0 < i < s.next)
    && (forall h {:trigger ObjInv(s, h)} :: ObjInv(s, h))
    && (forall h {:trigger GoInv(s, h)} :: GoInv(s, h))
  }

  ghost predicate OpsInv(s: State) {
    forall i {:trigger OpInv(s, i, s.ops[i])} :: i in s.ops ==> OpInv(s, i, s.ops[i])
  }

  ghost predicate Inv(s: State) {
    TokenGlobals(s) && ObjGlobals(s) && OpsInv(s)
  }
}
