/** Every step of the protocol keeps its invariant.

    The first part treats the spawner, the future, its supervisor and outside cancellers; the
    second the awaiting caller, the pump, the last reference going away and Go's frees. For
    each step there is a lemma about the one record it changes (`...Local`), one about what
    it leaves alone, and one that puts them together (`...Keeps`). Steps that only touch one
    record and neither queue, tables nor registry share `QuietStep`; those that change the
    registry say which entries appear and disappear. OpTheorems draws the conclusions. */
module OpSteps {
  import opened Common
  import opened OpTypes
  import opened PumpTables
  import opened OpProtocol
  import opened OpInvariant

  // ==== spawner, future, supervisor and outside cancellers ================================

  lemma {:induction false} CountAppend(q: seq<(nat, Status)>, e: (nat, Status), i: nat)
    ensures Count(q + [e], i) == Count(q, i) + Ind(e.0 == i)
  {
    if q == [] {
      assert q + [e] == [e];
    } else {
      assert (q + [e])[1..] == q[1..] + [e];
      CountAppend(q[1..], e, i);
    }
  }

  /** What another operation's bookkeeping needs of a step that does not touch it. */
  ghost predicate Untouched(s: State, s': State, j: nat) {
    && j in s.ops && j in s'.ops && s.ops[j] == s'.ops[j]
    && s.next <= s'.next
    && Count(s.queue, j) == Count(s'.queue, j)
    && InPumpHand(s, j) == InPumpHand(s', j)
    && (s.pump.Sending? && s.pump.op == j) == (s'.pump.Sending? && s'.pump.op == j)
    && (j in s.tables.waiters <==> j in s'.tables.waiters)
    && (j in s.tables.unclaimed <==> j in s'.tables.unclaimed)
    && (j in s.objs <==> j in s'.objs)
    && (j in s.objs ==> s.objs[j] == s'.objs[j])
    && (forall h :: h in Held(s.ops[j]) ==>
          (h in s.objs ==> h in s'.objs && s'.objs[h] == s.objs[h]) && (h in s'.everGo ==> h in s.everGo))
    && (s.ops[j].caller.ErrTaken? ==>
          var h := s.ops[j].caller.errh; h in s.objs ==> h in s'.objs && s'.objs[h] == s.objs[h])
  }

  lemma FrameOp(s: State, s': State, j: nat)
    requires Untouched(s, s', j) && OpInv(s, j, s.ops[j])
    ensures OpInv(s', j, s'.ops[j])
  {
  }

  /** All operations but `i` are untouched, so only `i` is left to check. */
  lemma FrameAll(s: State, s': State, i: nat)
    requires OpsInv(s)
    requires forall j :: j in s'.ops && j != i ==> Untouched(s, s', j)
    requires i in s'.ops ==> OpInv(s', i, s'.ops[i])
    ensures OpsInv(s')
  {
    forall j | j in s'.ops ensures OpInv(s', j, s'.ops[j]) {
      if j != i {
        assert Untouched(s, s', j);
        FrameOp(s, s', j);
      }
    }
  }

  /** A step that only rewrites the record of `i`, in ways no one else looks at. */
  ghost predicate Quiet(o: OpRec, o': OpRec) {
    && o'.chan == o.chan && (o.posted.None? || o'.posted == o.posted)
    && Pushed(o') == Pushed(o) && Parked(o') == Parked(o) && Received(o') == Received(o)
    && (NotYetRegistered(o) == NotYetRegistered(o'))
    && o'.spawner.Reserved? == o.spawner.Reserved? && o'.caller.Done? == o.caller.Done?
    && Held(o') == Held(o) && !o'.dropped
    && (o.caller.ErrTaken? || o'.caller.ErrTaken? ==> o'.caller == o.caller && o'.posted == o.posted)
  }

  lemma QuietLink(s: State, i: nat, o': OpRec)
    requires i in s.ops && OpInv(s, i, s.ops[i]) && Local(o') && Quiet(s.ops[i], o')
    ensures OpInv(Put(s, i, o'), i, o')
  {
    var s' := Put(s, i, o');
    assert HeldInv(s', i, o');
    assert LiveInv(s', i, o');
    assert TokenInv(s', i, o');
  }

  /** Completions in flight stay truthful when no posted outcome changes. */
  ghost predicate KeepsPosted(s: State, s': State) {
    forall j :: j in s.ops ==> j in s'.ops && (s.ops[j].posted.Some? ==> s'.ops[j].posted == s.ops[j].posted)
  }

  lemma KeepTokens(s: State, s': State)
    requires TokenGlobals(s) && KeepsPosted(s, s')
    requires s'.queue == s.queue && s'.pump == s.pump && s'.tables == s.tables
    ensures TokenGlobals(s')
  {
  }

  /** The registry side is untouched when entries, ownership and holdings are. */
  lemma KeepObjs(s: State, i: nat, o': OpRec)
    requires ObjGlobals(s) && i in s.ops
    requires Held(s.ops[i]) <= Held(o') && (s.ops[i].caller.ErrTaken? ==> o'.caller == s.ops[i].caller)
    ensures ObjGlobals(Put(s, i, o'))
  {
    var s' := Put(s, i, o');
    forall h ensures ObjInv(s', h) { assert ObjInv(s, h); }
    forall h ensures GoInv(s', h) { assert GoInv(s, h); }
  }

  lemma QuietStep(s: State, i: nat, o': OpRec)
    requires Inv(s) && i in s.ops && Local(o') && Quiet(s.ops[i], o')
    ensures Inv(Put(s, i, o'))
  {
    QuietLink(s, i, o');
    FrameAll(s, Put(s, i, o'), i);
    KeepTokens(s, Put(s, i, o'));
    KeepObjs(s, i, o');
  }

  // ---- spawner ----------------------------------------------------------------

  /** The next handle is new to everything. */
  lemma Fresh(s: State)
    requires Inv(s)
    ensures s.next !in s.objs && s.next !in s.everGo && s.next !in s.go && s.next !in s.ops
    ensures s.next !in s.tables.waiters && s.next !in s.tables.unclaimed
    ensures Count(s.queue, s.next) == 0 && !InPumpHand(s, s.next)
  {
    assert ObjInv(s, s.next) && GoInv(s, s.next);
    NoCount(s, s.queue, s.next);
  }

  lemma {:induction false} NoCount(s: State, q: seq<(nat, Status)>, i: nat)
    requires i !in s.ops
    requires forall k :: 0 <= k < |q| ==> StatusInv(s, q[k].0, q[k].1)
    ensures Count(q, i) == 0
  {
    if q != [] {
      assert StatusInv(s, q[0].0, q[0].1);
      NoCount(s, q[1..], i);
    }
  }

  lemma ReserveLink(s: State, a: Await)
    requires Inv(s)
    ensures var i, s' := s.next, Put(s, s.next, NewOp(a)).(next := s.next + 1); OpInv(s', i, s'.ops[i])
  {
    Fresh(s);
  }

  lemma ReserveKeeps(s: State, a: Await)
    requires Inv(s)
    ensures Inv(Put(s, s.next, NewOp(a)).(next := s.next + 1))
  {
    var i := s.next;
    var s' := Put(s, i, NewOp(a)).(next := i + 1);
    Fresh(s);
    ReserveLink(s, a);
    FrameAll(s, s', i);
    KeepTokens(s, s');
    forall h ensures ObjInv(s', h) { assert ObjInv(s, h); }
    forall h ensures GoInv(s', h) { assert GoInv(s, h); }
  }

  lemma PublishLink(s: State, i: nat)
    requires i in s.ops && OpInv(s, i, s.ops[i]) && s.ops[i].spawner.Reserved?
    ensures OpInv(SpawnStep(s, i), i, SpawnStep(s, i).ops[i])
  {
  }

  /** An identifier that names an operation is not a handle Go or a future holds. */
  lemma OpIdIsPrivate(s: State, i: nat)
    requires Inv(s) && i in s.ops
    ensures 0 < i < s.next && i !in s.everGo
    ensures i !in s.objs ==> forall j :: j in s.ops ==> i !in Held(s.ops[j])
  {
    assert OpInv(s, i, s.ops[i]) && GoInv(s, i);
    if i !in s.objs {
      forall j | j in s.ops ensures i !in Held(s.ops[j]) {
        assert OpInv(s, j, s.ops[j]);
      }
    }
  }

  /** Adding an entry under a key nobody else looks at. */
  lemma AddObjFrames(s: State, s': State, i: nat, h: nat, x: Obj)
    requires OpsInv(s) && h !in s.objs
    requires s' == s.(objs := s.objs[h := x], ops := s'.ops, next := s'.next, born := s'.born)
    requires s'.ops.Keys == s.ops.Keys && forall j :: j in s.ops && j != i ==> s'.ops[j] == s.ops[j]
    requires s.next <= s'.next && (h in s.ops ==> h == i)
    ensures forall j :: j in s'.ops && j != i ==> Untouched(s, s', j)
  {
  }

  lemma PublishObjs(s: State, i: nat)
    requires ObjGlobals(s) && i in s.ops && i !in s.objs && i !in s.everGo
    requires s.ops[i].spawner.Reserved? && !s.ops[i].caller.ErrTaken?
    ensures ObjGlobals(SpawnStep(s, i))
  {
    var s' := SpawnStep(s, i);
    forall h ensures ObjInv(s', h) { assert ObjInv(s, h); }
    forall h ensures GoInv(s', h) { assert GoInv(s, h); }
  }

  lemma PublishKeeps(s: State, i: nat)
    requires Inv(s) && i in s.ops && s.ops[i].spawner.Reserved?
    ensures Inv(SpawnStep(s, i))
  {
    var s' := SpawnStep(s, i);
    assert OpInv(s, i, s.ops[i]);
    OpIdIsPrivate(s, i);
    PublishLink(s, i);
    AddObjFrames(s, s', i, i, OpObj);
    FrameAll(s, s', i);
    KeepTokens(s, s');
    PublishObjs(s, i);
  }

  /** Pushing the completion: by the supervisor, or by `spawn_ready` itself. */
  ghost predicate Pushes(o: OpRec, o': OpRec) {
    && o'.posted == o.posted && o.posted.Some?
    && !Pushed(o) && Pushed(o')
    && o' == o.(sup := o'.sup, spawner := o'.spawner)
    && !o.spawner.Reserved? && !o'.spawner.Reserved?
  }

  lemma PushLink(s: State, i: nat, o': OpRec)
    requires i in s.ops && OpInv(s, i, s.ops[i]) && Pushes(s.ops[i], o') && Local(o')
    ensures var e := (i, StatusOf(o'.posted.value));
            OpInv(Put(s, i, o').(queue := s.queue + [e]), i, o')
  {
    var e := (i, StatusOf(o'.posted.value));
    var s' := Put(s, i, o').(queue := s.queue + [e]);
    CountAppend(s.queue, e, i);
    assert Held(o') == Held(s.ops[i]);
    assert LiveInv(s', i, o') && HeldInv(s', i, o');
    assert TokenInv(s', i, o');
  }

  lemma PushKeeps(s: State, i: nat, o': OpRec)
    requires Inv(s) && i in s.ops && Pushes(s.ops[i], o') && Local(o')
    ensures Inv(Put(s, i, o').(queue := s.queue + [(i, StatusOf(o'.posted.value))]))
  {
    var e := (i, StatusOf(o'.posted.value));
    var s' := Put(s, i, o').(queue := s.queue + [e]);
    assert OpInv(s, i, s.ops[i]);
    PushLink(s, i, o');
    PushFrames(s, i, o', e);
    FrameAll(s, s', i);
    PushTokens(s, i, o', e);
    PushObjs(s, i, o', e);
  }

  lemma PushFrames(s: State, i: nat, o': OpRec, e: (nat, Status))
    requires i in s.ops && e.0 == i
    ensures var s' := Put(s, i, o').(queue := s.queue + [e]);
            forall j :: j in s'.ops && j != i ==> Untouched(s, s', j)
  {
    var s' := Put(s, i, o').(queue := s.queue + [e]);
    forall j | j in s'.ops && j != i ensures Untouched(s, s', j) {
      CountAppend(s.queue, e, j);
    }
  }

  lemma PushTokens(s: State, i: nat, o': OpRec, e: (nat, Status))
    requires TokenGlobals(s) && i in s.ops && o'.posted == s.ops[i].posted
    requires o'.posted.Some? && e == (i, StatusOf(o'.posted.value))
    ensures TokenGlobals(Put(s, i, o').(queue := s.queue + [e]))
  {
    var s' := Put(s, i, o').(queue := s.queue + [e]);
    forall k | 0 <= k < |s'.queue| ensures StatusInv(s', s'.queue[k].0, s'.queue[k].1) {
      if k < |s.queue| { assert StatusInv(s, s.queue[k].0, s.queue[k].1); }
    }
  }

  lemma PushObjs(s: State, i: nat, o': OpRec, e: (nat, Status))
    requires ObjGlobals(s) && i in s.ops && Pushes(s.ops[i], o')
    ensures ObjGlobals(Put(s, i, o').(queue := s.queue + [e]))
  {
    var s' := Put(s, i, o').(queue := s.queue + [e]);
    assert Held(o') == Held(s.ops[i]);
    KeepObjs(s, i, o');
    forall h ensures ObjInv(s', h) { assert ObjInv(Put(s, i, o'), h); }
    forall h ensures GoInv(s', h) { assert GoInv(Put(s, i, o'), h); }
  }

  /** What `spawn` does before it returns touches nothing the result and caller sides see. */
  lemma SpawnLocal(s: State, i: nat)
    requires SpawnEnabled(s, i) && Local(s.ops[i])
    ensures Local(SpawnStep(s, i).ops[i])
  {
    var o, o' := s.ops[i], SpawnStep(s, i).ops[i];
    SpawnLocalCore(s, i);
    assert CallerInv(o') by { assert CallerInv(o) && SpawnInv(o); }
  }

  lemma SpawnLocalCore(s: State, i: nat)
    requires SpawnEnabled(s, i) && SpawnInv(s.ops[i]) && OutcomeInv(s.ops[i])
    requires CancelInv(s.ops[i]) && ResultInv(s.ops[i])
    ensures var o' := SpawnStep(s, i).ops[i];
            SpawnInv(o') && OutcomeInv(o') && CancelInv(o') && ResultInv(o')
  {
    match s.ops[i].spawner
    case Reserved =>
    case Published =>
    case TaskSpawned =>
    case AbortStored =>
    case Rechecked =>
    case ReadyStored =>
    case ReadyPushed =>
  }

  lemma SpawnQuiet(s: State, i: nat)
    requires SpawnEnabled(s, i) && SpawnInv(s.ops[i]) && ResultInv(s.ops[i])
    requires !s.ops[i].spawner.Reserved?
    ensures var o, o' := s.ops[i], SpawnStep(s, i).ops[i];
            if o.spawner.ReadyStored? then Pushes(o, o')
            else SpawnStep(s, i) == Put(s, i, o') && Quiet(o, o')
  {
    assert Held(SpawnStep(s, i).ops[i]) == Held(s.ops[i]);
  }

  lemma SpawnKeeps(s: State, i: nat)
    requires Inv(s) && SpawnEnabled(s, i)
    ensures Inv(SpawnStep(s, i))
  {
    assert OpInv(s, i, s.ops[i]);
    SpawnLocal(s, i);
    if s.ops[i].spawner.Reserved? {
      PublishKeeps(s, i);
      return;
    }
    SpawnQuiet(s, i);
    if s.ops[i].spawner.ReadyStored? {
      PushKeeps(s, i, SpawnStep(s, i).ops[i]);
    } else {
      QuietStep(s, i, SpawnStep(s, i).ops[i]);
    }
  }

  lemma SpawnReadyKeeps(s: State, i: nat, k: ErrKind)
    requires Inv(s) && Enabled(s, SpawnReady(i, k))
    ensures Inv(SpawnReadyStep(s, i, k))
  {
    assert OpInv(s, i, s.ops[i]);
    QuietStep(s, i, SpawnReadyStep(s, i, k).ops[i]);
  }

  // ---- task and supervisor ------------------------------------------------------

  lemma TaskKeeps(s: State, i: nat, t: Task)
    requires Inv(s) && i in s.ops && s.ops[i].task.Running?
    requires (t.Finished? && PlainResult(s.ops[i].await, t.out)) || (t.Stopped? && s.ops[i].aborted) || t.Panicked?
    ensures Inv(Put(s, i, s.ops[i].(task := t)))
  {
    assert OpInv(s, i, s.ops[i]);
    QuietStep(s, i, s.ops[i].(task := t));
  }

  lemma ProduceMovesTask(s: State, i: nat)
    requires i in s.ops && ProduceEnabled(s.ops[i])
    ensures i in ProduceStep(s, i).ops
    ensures ProduceStep(s, i).ops[i] == s.ops[i].(task := ProduceStep(s, i).ops[i].task)
  {
    var o := s.ops[i];
    if o.task.Running? {
      assert ProduceStep(s, i).ops[i] == o.(task := Producing([]));
    } else if |o.task.made| < HandlesNeeded(o.await) {
      assert ProduceStep(s, i).ops[i] == o.(task := Producing(o.task.made + [s.next]));
    }
  }

  lemma AllocLink(s: State, i: nat)
    requires Inv(s) && i in s.ops && ProduceEnabled(s.ops[i])
    requires s.ops[i].task.Producing? && |s.ops[i].task.made| < HandlesNeeded(s.ops[i].await)
    ensures OpInv(ProduceStep(s, i), i, ProduceStep(s, i).ops[i])
  {
    var o, s' := s.ops[i], ProduceStep(s, i);
    var o' := s'.ops[i];
    var h := s.next;
    Fresh(s);
    assert OpInv(s, i, o);
    assert o.task.made == [] || h != o.task.made[0] by {
      if o.task.made != [] { assert o.task.made[0] in Held(o); }
    }
    assert Local(o');
    forall x | x in Held(o') ensures MadeBy(s', x, i) && x !in s'.everGo {
      assert x == h || x in Held(o);
    }
    assert TokenInv(s', i, o') && LiveInv(s', i, o') && HeldInv(s', i, o');
  }

  lemma AllocObjs(s: State, i: nat)
    requires ObjGlobals(s) && i in s.ops && ProduceEnabled(s.ops[i]) && s.next !in s.ops && s.next !in s.everGo
    requires s.ops[i].task.Producing? && |s.ops[i].task.made| < HandlesNeeded(s.ops[i].await)
    requires !s.ops[i].caller.ErrTaken? && s.ops[i].result.None?
    ensures ObjGlobals(ProduceStep(s, i))
  {
    var o, s' := s.ops[i], ProduceStep(s, i);
    var o' := s'.ops[i];
    assert o'.task.made[|o.task.made|] == s.next;
    assert forall x :: x in o.task.made ==> x in o'.task.made;
    forall h ensures ObjInv(s', h) { assert ObjInv(s, h); }
    forall h ensures GoInv(s', h) { assert GoInv(s, h); }
  }

  lemma ProduceKeeps(s: State, i: nat)
    requires Inv(s) && i in s.ops && ProduceEnabled(s.ops[i])
    ensures Inv(ProduceStep(s, i))
  {
    var o, s' := s.ops[i], ProduceStep(s, i);
    assert OpInv(s, i, o);
    if o.task.Running? || |o.task.made| == HandlesNeeded(o.await) {
      assert Held(s'.ops[i]) == Held(o);
      QuietStep(s, i, s'.ops[i]);
    } else {
      Fresh(s);
      AllocLink(s, i);
      AddObjFrames(s, s', i, s.next, ResObj(i, |o.task.made|));
      FrameAll(s, s', i);
      KeepTokens(s, s');
      AllocObjs(s, i);
    }
  }

  lemma SuperviseKeeps(s: State, i: nat)
    requires Inv(s) && i in s.ops && SuperviseEnabled(s.ops[i])
    ensures Inv(SuperviseStep(s, i))
  {
    var o := s.ops[i];
    var o' := SuperviseStep(s, i).ops[i];
    assert OpInv(s, i, o);
    if o.sup.Storing? {
      PushKeeps(s, i, o');
    } else {
      assert Held(o') == Held(o);
      QuietStep(s, i, o');
    }
  }

  // ---- cancellers ---------------------------------------------------------------

  lemma OutsideLocal(s: State, step: Step)
    requires Enabled(s, step) && (step.OutsideFetch? || step.OutsideFlag? || step.OutsideAbort?)
    requires Local(s.ops[step.op])
    ensures Local(Apply(s, step).ops[step.op])
  {
  }

  lemma OutsideQuiet(s: State, step: Step)
    requires Enabled(s, step) && (step.OutsideFetch? || step.OutsideFlag? || step.OutsideAbort?)
    requires !s.ops[step.op].dropped
    ensures var i := step.op;
            var o' := Apply(s, step).ops[i];
            Apply(s, step) == Put(s, i, o') && Quiet(s.ops[i], o')
  {
    assert Held(Apply(s, step).ops[step.op]) == Held(s.ops[step.op]);
  }

  lemma OutsideKeeps(s: State, step: Step)
    requires Inv(s) && Enabled(s, step) && (step.OutsideFetch? || step.OutsideFlag? || step.OutsideAbort?)
    ensures Inv(Apply(s, step))
  {
    assert OpInv(s, step.op, s.ops[step.op]);
    OutsideLocal(s, step);
    OutsideQuiet(s, step);
    QuietStep(s, step.op, Apply(s, step).ops[step.op]);
  }

  // ==== the caller, the pump, `Drop` and Go's frees =======================================

  /** The registry side only reads registry, operations and ownership. */
  lemma SameObjs(a: State, b: State)
    requires ObjGlobals(a)
    requires a.objs == b.objs && a.ops == b.ops && a.next == b.next && a.go == b.go && a.everGo == b.everGo
    ensures ObjGlobals(b)
  {
    forall h ensures ObjInv(b, h) { assert ObjInv(a, h); }
    forall h ensures GoInv(b, h) { assert GoInv(a, h); }
  }

  // ---- register and receive -------------------------------------------------

  /** How `await` moves on, on the caller's record. */
  predicate AwaitChange(o: OpRec, o': OpRec) {
    match o.caller
    case Started => o' == o.(caller := Waiting, chan := o'.chan)
    case Waiting => o.chan.Some? && o' == o.(caller := Claiming(o.chan.value), chan := None)
    case CancelFetched => o' == o.(caller := CancelFlagged, cancelRequested := true)
    case CancelFlagged => o' == AbortIfStored(o).(caller := Draining)
    case Draining =>
      && o.chan.Some?
      && o' == o.(caller := if o.chan.value == StOk then Claiming(StOk) else Abandoning, chan := None)
    case _ => false
  }

  lemma AwaitChanges(s: State, i: nat)
    requires i in s.ops && CallEnabled(s.ops[i]) && Awaiting(s.ops[i].caller)
    ensures i in AwaitStep(s, i).ops && AwaitChange(s.ops[i], AwaitStep(s, i).ops[i])
  {
  }

  lemma RegisterLink(s: State, i: nat)
    requires i in s.ops && OpInv(s, i, s.ops[i]) && s.ops[i].caller.Started? && TokenGlobals(s)
    ensures OpInv(CallStep(s, i), i, CallStep(s, i).ops[i])
  {
    var o, s' := s.ops[i], CallStep(s, i);
    var o' := s'.ops[i];
    if i in s.tables.unclaimed { assert StatusInv(s, i, s.tables.unclaimed[i]); }
    assert Held(o') == Held(o);
    assert CallerInv(o');
    assert TokenInv(s', i, o') && LiveInv(s', i, o') && HeldInv(s', i, o');
  }

  lemma RegisterTokens(s: State, i: nat)
    requires TokenGlobals(s) && i in s.ops && s.ops[i].caller.Started?
    ensures TokenGlobals(CallStep(s, i))
    ensures forall j :: j in s.ops && j != i ==> Untouched(s, CallStep(s, i), j)
  {
  }

  lemma RegisterKeeps(s: State, i: nat)
    requires Inv(s) && i in s.ops && s.ops[i].caller.Started?
    ensures Inv(CallStep(s, i))
  {
    var s' := CallStep(s, i);
    assert OpInv(s, i, s.ops[i]);
    RegisterLink(s, i);
    RegisterTokens(s, i);
    FrameAll(s, s', i);
    assert Held(s'.ops[i]) == Held(s.ops[i]);
    KeepObjs(s, i, s'.ops[i]);
    SameObjs(Put(s, i, s'.ops[i]), s');
  }

  /** Taking the status out of the channel, in either receive of `await`. */
  ghost predicate Receives(o: OpRec, o': OpRec) {
    && o.chan.Some? && o' == o.(chan := None, caller := o'.caller)
    && Parked(o) && Received(o') && !o'.caller.Done? && !o'.caller.ErrTaken?
    && !o.dropped && Local(o')
  }

  lemma ReceiveLink(s: State, i: nat, o': OpRec)
    requires i in s.ops && OpInv(s, i, s.ops[i]) && Receives(s.ops[i], o')
    ensures OpInv(Put(s, i, o'), i, o')
  {
    var s' := Put(s, i, o');
    assert Held(o') == Held(s.ops[i]);
    assert TokenInv(s', i, o') && LiveInv(s', i, o') && HeldInv(s', i, o');
  }

  lemma ReceiveKeeps(s: State, i: nat, o': OpRec)
    requires Inv(s) && i in s.ops && Receives(s.ops[i], o')
    ensures Inv(Put(s, i, o'))
  {
    assert OpInv(s, i, s.ops[i]);
    ReceiveLink(s, i, o');
    FrameAll(s, Put(s, i, o'), i);
    KeepTokens(s, Put(s, i, o'));
    KeepObjs(s, i, o');
  }

  lemma WaitLocal(o: OpRec)
    requires Local(o) && o.chan.Some? && (o.caller.Waiting? || o.caller.Draining?)
    ensures o.caller.Waiting? ==> Receives(o, o.(caller := Claiming(o.chan.value), chan := None))
    ensures o.caller.Draining? && o.chan.value == StOk ==> Receives(o, o.(caller := Claiming(StOk), chan := None))
    ensures o.caller.Draining? && o.chan.value != StOk ==> Receives(o, o.(caller := Abandoning, chan := None))
  {
  }

  lemma CancelLocal(o: OpRec)
    requires Local(o) && (o.caller.Waiting? || o.caller.CancelFetched? || o.caller.CancelFlagged?)
    ensures o.caller.Waiting? ==> Local(o.(caller := CancelFetched))
    ensures o.caller.CancelFetched? ==> Local(o.(caller := CancelFlagged, cancelRequested := true))
    ensures o.caller.CancelFlagged? ==> Local(AbortIfStored(o).(caller := Draining))
  {
  }

  // ---- claiming the result --------------------------------------------------

  /** A caller holding a status finds the operation live and its outcome in the slot. */
  lemma TakeFinds(s: State, i: nat)
    requires i in s.ops && OpInv(s, i, s.ops[i]) && s.ops[i].caller.Claiming?
    ensures var o := s.ops[i];
            && OpLive(s, i) && o.posted.Some? && o.result == o.posted && !o.dropped && !o.claimed
            && TakeOutcome(s, i, o) == o.posted.value
            && o.caller.st == StatusOf(o.posted.value)
            && WellTyped(o.await, o.posted.value)
            && (o.posted.value.Ok? ==> Claim(o.await, o.posted.value) == o.posted.value)
  {
  }

  ghost predicate ClaimsErr(s: State, i: nat) {
    i in s.ops && s.ops[i].caller.Claiming? && s.ops[i].caller.st != StOk
  }

  lemma ClaimErrLink(s: State, i: nat)
    requires Inv(s) && ClaimsErr(s, i)
    ensures var o, s' := s.ops[i], CallStep(s, i);
            && o.posted.Some? && o.posted.value.Err?
            && s' == Put(StoreErr(s, o.posted.value.error, i), i,
                         o.(result := None, claimed := true, caller := ErrTaken(s.next)))
            && OpInv(s', i, s'.ops[i])
  {
    var o, s' := s.ops[i], CallStep(s, i);
    var o' := s'.ops[i];
    assert OpInv(s, i, o);
    TakeFinds(s, i);
    Fresh(s);
    assert Held(o') == Held(o);
    assert Local(o');
    assert TokenInv(s', i, o') && LiveInv(s', i, o') && HeldInv(s', i, o') && ErrInv(s', i, o');
  }

  lemma ClaimErrObjs(s: State, i: nat, k: ErrKind, o': OpRec)
    requires ObjGlobals(s) && i in s.ops && s.next !in s.ops && !s.ops[i].caller.ErrTaken?
    requires Held(o') == Held(s.ops[i]) && o'.caller == ErrTaken(s.next) && s.next !in s.everGo
    ensures ObjGlobals(Put(StoreErr(s, k, i), i, o'))
  {
    var s' := Put(StoreErr(s, k, i), i, o');
    forall h ensures ObjInv(s', h) { assert ObjInv(s, h); }
    forall h ensures GoInv(s', h) { assert GoInv(s, h); }
  }

  lemma ClaimErrKeeps(s: State, i: nat)
    requires Inv(s) && ClaimsErr(s, i)
    ensures Inv(CallStep(s, i))
  {
    var o, s' := s.ops[i], CallStep(s, i);
    ClaimErrLink(s, i);
    Fresh(s);
    assert OpInv(s, i, o);
    AddObjFrames(s, s', i, s.next, ErrObj(o.posted.value.error, i));
    FrameAll(s, s', i);
    KeepTokens(s, s');
    assert Held(s'.ops[i]) == Held(o);
    ClaimErrObjs(s, i, o.posted.value.error, s'.ops[i]);
  }

  ghost predicate ClaimsValue(s: State, i: nat) {
    i in s.ops && s.ops[i].caller.Claiming? && s.ops[i].caller.st == StOk && !s.ops[i].await.AUnit?
  }

  lemma ClaimValueLink(s: State, i: nat)
    requires i in s.ops && OpInv(s, i, s.ops[i]) && ClaimsValue(s, i)
    ensures var o, s' := s.ops[i], CallStep(s, i);
            && o.posted.Some? && o.posted.value.Ok? && o.result == o.posted
            && s' == Put(s, i, o.(result := None, claimed := true, caller := ResultTaken(o.posted.value.value)))
                       .(go := s.go + Handles(o.posted.value.value), everGo := s.everGo + Handles(o.posted.value.value))
            && Held(s'.ops[i]) == {}
            && OpInv(s', i, s'.ops[i])
  {
    var o, s' := s.ops[i], CallStep(s, i);
    var o' := s'.ops[i];
    TakeFinds(s, i);
    assert Held(o') == {};
    assert Local(o');
    assert TokenInv(s', i, o') && LiveInv(s', i, o') && HeldInv(s', i, o') && ErrInv(s', i, o');
  }

  /** Ownership of `hs`, all held by `i`, moves to Go. */
  lemma GiveFrames(s: State, s': State, i: nat, o': OpRec, hs: set<nat>)
    requires OpsInv(s) && i in s.ops && hs <= Held(s.ops[i])
    requires s' == s.(ops := s.ops[i := o'], go := s.go + hs, everGo := s.everGo + hs)
    ensures forall j :: j in s'.ops && j != i ==> Untouched(s, s', j)
  {
    assert OpInv(s, i, s.ops[i]);
    forall j | j in s'.ops && j != i ensures Untouched(s, s', j) {
      assert OpInv(s, j, s.ops[j]);
      assert HeldInv(s, j, s.ops[j]) && HeldInv(s, i, s.ops[i]);
    }
  }

  lemma GiveObjs(s: State, i: nat, o': OpRec, hs: set<nat>)
    requires ObjGlobals(s) && i in s.ops && hs == Held(s.ops[i]) && HeldInv(s, i, s.ops[i])
    requires !s.ops[i].caller.ErrTaken?
    ensures ObjGlobals(Put(s, i, o').(go := s.go + hs, everGo := s.everGo + hs))
  {
    var s' := Put(s, i, o').(go := s.go + hs, everGo := s.everGo + hs);
    forall h ensures ObjInv(s', h) { assert ObjInv(s, h); }
    forall h ensures GoInv(s', h) { assert GoInv(s, h) && ObjInv(s, h); }
  }

  lemma ClaimValueKeeps(s: State, i: nat)
    requires Inv(s) && ClaimsValue(s, i)
    ensures Inv(CallStep(s, i))
  {
    var o, s' := s.ops[i], CallStep(s, i);
    assert OpInv(s, i, o);
    ClaimValueLink(s, i);
    var hs := Handles(o.posted.value.value);
    assert Held(o) == hs;
    GiveFrames(s, s', i, s'.ops[i], hs);
    FrameAll(s, s', i);
    KeepTokens(s, s');
    GiveObjs(s, i, s'.ops[i], hs);
  }

  // ---- freeing --------------------------------------------------------------

  /** `iroh_op_free(i)` as the last thing the caller does with the operation. */
  ghost predicate Frees(o: OpRec, o': OpRec) {
    && o' == o.(caller := o'.caller) && o'.caller.Done?
    && !o.caller.ErrTaken? && !o.caller.Done? && Received(o)
    && Local(o')
  }

  lemma FreeLink(s: State, i: nat, o': OpRec)
    requires i in s.ops && OpInv(s, i, s.ops[i]) && Frees(s.ops[i], o')
    ensures OpInv(Put(Remove(s, {i}), i, o'), i, o')
  {
    var s' := Put(Remove(s, {i}), i, o');
    assert Held(o') == Held(s.ops[i]);
    assert i !in Held(o');
    assert TokenInv(s', i, o') && LiveInv(s', i, o') && HeldInv(s', i, o');
  }

  /** Removing registry entries that no other operation relies on. */
  lemma RemoveFrames(s: State, s': State, i: nat, hs: set<nat>)
    requires OpsInv(s)
    requires s' == s.(objs := s.objs - hs, ops := s'.ops, go := s'.go)
    requires s'.ops.Keys == s.ops.Keys && forall j :: j in s.ops && j != i ==> s'.ops[j] == s.ops[j]
    requires forall h :: h in hs && h in s.objs ==>
               match s.objs[h]
               case OpObj => h == i
               case ErrObj(_, m) => m == i
               case ResObj(m, _) => m == i || h in s.everGo
    ensures forall j :: j in s'.ops && j != i ==> Untouched(s, s', j)
  {
    forall j | j in s'.ops && j != i ensures Untouched(s, s', j) {
      assert OpInv(s, j, s.ops[j]);
      assert LiveInv(s, j, s.ops[j]) && HeldInv(s, j, s.ops[j]) && ErrInv(s, j, s.ops[j]);
    }
  }

  lemma RemoveObjs(s: State, i: nat, o': OpRec, hs: set<nat>)
    requires ObjGlobals(s) && i in s.ops
    requires Held(s.ops[i]) <= Held(o') + hs && (s.ops[i].caller.ErrTaken? ==> s.ops[i].caller.errh in hs)
    requires forall h :: h in hs ==> h !in s.go
    ensures ObjGlobals(Put(Remove(s, hs), i, o'))
  {
    var s' := Put(Remove(s, hs), i, o');
    forall h ensures ObjInv(s', h) { assert ObjInv(s, h); }
    forall h ensures GoInv(s', h) { assert GoInv(s, h); }
  }

  lemma FreeKeeps(s: State, i: nat, o': OpRec)
    requires Inv(s) && i in s.ops && Frees(s.ops[i], o')
    ensures Inv(Put(Remove(s, {i}), i, o'))
  {
    var s' := Put(Remove(s, {i}), i, o');
    assert OpInv(s, i, s.ops[i]);
    FreeLink(s, i, o');
    RemoveFrames(s, s', i, {i});
    FrameAll(s, s', i);
    KeepTokens(s, s');
    assert Held(o') == Held(s.ops[i]);
    assert GoInv(s, i);
    RemoveObjs(s, i, o', {i});
  }

  lemma FreeLocal(s: State, i: nat)
    requires i in s.ops && OpInv(s, i, s.ops[i])
    ensures var o := s.ops[i];
            match o.caller
            case Claiming(st) => o.await.AUnit? && st == StOk ==> Frees(o, o.(caller := Done(Value(Unit))))
            case ErrRead(k) => Frees(o, o.(caller := Done(Failed(k))))
            case ResultTaken(v) => Frees(o, o.(caller := Done(Value(v))))
            case Abandoning => Frees(o, o.(caller := Done(CtxErr)))
            case _ => true
  {
    if s.ops[i].caller.Claiming? { TakeFinds(s, i); }
  }

  /** `takeError` consumes the error object. */
  lemma ErrReadKeeps(s: State, i: nat)
    requires Inv(s) && i in s.ops && s.ops[i].caller.ErrTaken?
    ensures Inv(CallStep(s, i))
  {
    var o, s' := s.ops[i], CallStep(s, i);
    var h := o.caller.errh;
    var o' := s'.ops[i];
    assert OpInv(s, i, o);
    assert ErrInv(s, i, o) && Held(o') == Held(o);
    assert h !in s.go by { assert GoInv(s, h); }
    ErrReadLink(s, i);
    RemoveFrames(s, s', i, {h});
    FrameAll(s, s', i);
    KeepTokens(s, s');
    RemoveObjs(s, i, o', {h});
  }

  lemma ErrReadLink(s: State, i: nat)
    requires i in s.ops && OpInv(s, i, s.ops[i]) && s.ops[i].caller.ErrTaken?
    ensures OpInv(CallStep(s, i), i, CallStep(s, i).ops[i])
  {
    var o, s' := s.ops[i], CallStep(s, i);
    var o' := s'.ops[i];
    assert Held(o') == Held(o);
    assert Local(o');
    assert TokenInv(s', i, o') && LiveInv(s', i, o') && HeldInv(s', i, o');
  }

  lemma CallKeeps(s: State, i: nat)
    requires Inv(s) && Enabled(s, Call(i))
    ensures Inv(CallStep(s, i))
  {
    var o, s' := s.ops[i], CallStep(s, i);
    assert OpInv(s, i, o);
    match o.caller
    case Started => RegisterKeeps(s, i);
    case Waiting => WaitLocal(o); ReceiveKeeps(s, i, s'.ops[i]);
    case Draining => WaitLocal(o); ReceiveKeeps(s, i, s'.ops[i]);
    case CancelFetched => CancelKeeps(s, i);
    case CancelFlagged => CancelKeeps(s, i);
    case Claiming(st) =>
      if st != StOk {
        ClaimErrKeeps(s, i);
      } else if o.await.AUnit? {
        FreeLocal(s, i);
        FreeKeeps(s, i, s'.ops[i]);
      } else {
        ClaimValueKeeps(s, i);
      }
    case ErrTaken(_) => ErrReadKeeps(s, i);
    case ErrRead(_) => FreeLocal(s, i); FreeKeeps(s, i, s'.ops[i]);
    case ResultTaken(_) => FreeLocal(s, i); FreeKeeps(s, i, s'.ops[i]);
    case Abandoning => FreeLocal(s, i); FreeKeeps(s, i, s'.ops[i]);
    case RefusedTaken(_) => assert false;
    case RefusedFreed(_) => assert false;
  }

  lemma CancelKeeps(s: State, i: nat)
    requires Inv(s) && i in s.ops && (s.ops[i].caller.CancelFetched? || s.ops[i].caller.CancelFlagged?)
    ensures Inv(CallStep(s, i))
  {
    var o, s' := s.ops[i], CallStep(s, i);
    assert OpInv(s, i, o);
    CancelLocal(o);
    assert Held(s'.ops[i]) == Held(o);
    QuietStep(s, i, s'.ops[i]);
  }

  lemma CtxDoneKeeps(s: State, i: nat)
    requires Inv(s) && Enabled(s, CtxDone(i))
    ensures Inv(Apply(s, CtxDone(i)))
  {
    var o := s.ops[i];
    var o' := o.(caller := CancelFetched);
    assert OpInv(s, i, o);
    assert OpLive(s, i) by { assert LiveInv(s, i, o) && SpawnInv(o); }
    CancelLocal(o);
    assert Held(o') == Held(o);
    QuietStep(s, i, o');
  }

  // ---- pump -----------------------------------------------------------------

  lemma PopKeeps(s: State)
    requires Inv(s) && s.pump.Idle? && s.queue != []
    ensures Inv(PumpStep(s))
  {
    var s' := PumpStep(s);
    var i := s.queue[0].0;
    assert StatusInv(s, s.queue[0].0, s.queue[0].1);
    assert TokenGlobals(s') by {
      forall k | 0 <= k < |s'.queue| ensures StatusInv(s', s'.queue[k].0, s'.queue[k].1) {
        assert StatusInv(s, s.queue[k + 1].0, s.queue[k + 1].1);
      }
    }
    SameObjs(s, s');
    PopLink(s, i);
    FrameAll(s, s', i);
  }

  lemma PopLink(s: State, i: nat)
    requires OpsInv(s) && s.pump.Idle? && s.queue != [] && i == s.queue[0].0 && i in s.ops
    ensures OpInv(PumpStep(s), i, s.ops[i])
  {
    assert OpInv(s, i, s.ops[i]);
    var s', o := PumpStep(s), s.ops[i];
    assert TokenInv(s', i, o) && LiveInv(s', i, o) && HeldInv(s', i, o);
  }

  lemma DeliverKeeps(s: State)
    requires Inv(s) && s.pump.Popped?
    ensures Inv(PumpStep(s))
  {
    var i := s.pump.op;
    var s' := PumpStep(s);
    assert StatusInv(s, i, s.pump.st);
    DeliverTokens(s);
    SameObjs(s, s');
    assert OpInv(s, i, s.ops[i]);
    DeliverLink(s);
    FrameAll(s, s', i);
  }

  lemma DeliverTokens(s: State)
    requires TokenGlobals(s) && s.pump.Popped?
    ensures TokenGlobals(PumpStep(s))
    ensures forall j :: j in s.ops && j != s.pump.op ==> Untouched(s, PumpStep(s), j)
  {
  }

  lemma DeliverLink(s: State)
    requires s.pump.Popped? && s.pump.op in s.ops && OpInv(s, s.pump.op, s.ops[s.pump.op])
    ensures OpInv(PumpStep(s), s.pump.op, s.ops[s.pump.op])
  {
    var i, s' := s.pump.op, PumpStep(s);
    var o := s.ops[i];
    assert TokenInv(s', i, o) && LiveInv(s', i, o) && HeldInv(s', i, o);
  }

  lemma SendKeeps(s: State)
    requires Inv(s) && s.pump.Sending?
    ensures PumpEnabled(s)
    ensures Inv(PumpStep(s))
  {
    var i := s.pump.op;
    assert StatusInv(s, i, s.pump.st);
    var o := s.ops[i];
    assert OpInv(s, i, o);
    assert TokenInv(s, i, o);
    SendLink(s);
    var s' := PumpStep(s);
    FrameAll(s, s', i);
    KeepObjs(s, i, s'.ops[i]);
    SameObjs(Put(s, i, s'.ops[i]), s');
    assert TokenGlobals(s');
  }

  lemma SendLink(s: State)
    requires s.pump.Sending? && StatusInv(s, s.pump.op, s.pump.st) && PumpEnabled(s)
    requires OpInv(s, s.pump.op, s.ops[s.pump.op])
    ensures Held(PumpStep(s).ops[s.pump.op]) == Held(s.ops[s.pump.op])
    ensures OpInv(PumpStep(s), s.pump.op, PumpStep(s).ops[s.pump.op])
  {
    var i, s' := s.pump.op, PumpStep(s);
    var o' := s'.ops[i];
    assert Held(o') == Held(s.ops[i]);
    assert Local(o');
    assert TokenInv(s', i, o') && LiveInv(s', i, o') && HeldInv(s', i, o') && ErrInv(s', i, o');
  }

  // ---- Drop and Go's frees ----------------------------------------------------

  lemma DropLink(s: State, i: nat)
    requires Enabled(s, Drop(i)) && OpInv(s, i, s.ops[i])
    ensures var o, s' := s.ops[i], DropStep(s, i);
            && s'.ops[i].posted == o.posted && !o.caller.ErrTaken?
            && s' == Put(Remove(s, Held(o)), i, o.(dropped := true, result := None))
            && Held(s'.ops[i]) == {}
            && OpInv(s', i, s'.ops[i])
  {
    var o, s' := s.ops[i], DropStep(s, i);
    var o' := s'.ops[i];
    assert o.caller.Done? && SpawnInv(o) && CallerInv(o) && OutcomeInv(o);
    assert Held(o) == (if o.result.Some? then OutcomeHandles(o.result.value) else {});
    assert Held(o') == {};
    assert Local(o');
    assert TokenInv(s', i, o') && LiveInv(s', i, o') && HeldInv(s', i, o') && ErrInv(s', i, o');
  }

  lemma DropKeeps(s: State, i: nat)
    requires Inv(s) && Enabled(s, Drop(i))
    ensures Inv(DropStep(s, i))
  {
    var o, s' := s.ops[i], DropStep(s, i);
    assert OpInv(s, i, o);
    DropLink(s, i);
    assert HeldInv(s, i, o);
    RemoveFrames(s, s', i, Held(o));
    FrameAll(s, s', i);
    KeepTokens(s, s');
    forall h | h in Held(o) ensures h !in s.go { assert GoInv(s, h); }
    RemoveObjs(s, i, s'.ops[i], Held(o));
  }

  lemma GoFreeKeeps(s: State, h: nat)
    requires Inv(s) && h in s.everGo
    ensures Inv(Apply(s, GoFree(h)))
  {
    var s' := Apply(s, GoFree(h));
    assert GoInv(s, h);
    KeepTokens(s, s');
    var i := s.next;
    if i in s.ops { assert false; }
    RemoveFrames(s, s', i, {h});
    FrameAll(s, s', i);
    forall x ensures ObjInv(s', x) { assert ObjInv(s, x); }
    forall x ensures GoInv(s', x) { assert GoInv(s, x); }
  }
}
