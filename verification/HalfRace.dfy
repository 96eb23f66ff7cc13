/** RecvStream.Close expires the deadline before it takes the handle. Whether a call can then
    keep it waiting is decided by the deadline in force at the take: if it has passed, no call
    ever can; if it has not, one can, from every such state. */
module HalfRace {
  import opened Common
  import opened OpTypes
  import opened StreamHalf
  import opened HalfInvariant
  import opened HalfSteps
  import opened HalfTheorems

  /** The close is queued behind an operation of call `c` that nothing but the peer, or a
      further deadline change, will end: its context is live, no `set` still owes it a cancel
      and its timer is not due. */
  ghost predicate StuckBehind(s: State, x: nat, c: nat) {
    && x in s.closers && s.closers[x].pc.CloseQueued?
    && ByCloser(x) in s.mutex && s.mutex[0] == ByCaller(c)
    && OpIs(s, c, Queued) && s.callers[c].reg in s.ctxs && !Doomed(s, s.callers[c].reg)
  }

  /** What that rules out. */
  lemma StuckMeansStuck(s: State, x: nat, c: nat, k: nat)
    requires StuckBehind(s, x, c)
    ensures !Enabled(s, CloseLand(x)) && !Enabled(s, LandStop(c))
    ensures !Enabled(s, Expire(s.callers[c].reg)) && !Enabled(s, SetCancel(k, s.callers[c].reg))
  {
    var r := s.callers[c].reg;
    assert 0 <= k < |s.sets| && r in s.sets[k].pending ==> Doomed(s, r);
  }

  // ---- under a deadline that has passed ---------------------------------------------------

  lemma SealedIsNeverStuck(s: State, x: nat, c: nat)
    requires Inv(s) && x in s.closers && s.closers[x].won && s.closers[x].sealed
    ensures !StuckBehind(s, x, c)
  {
    assert Trapped(s, c, x);
  }

  /** The close has not reached its take. */
  predicate BeforeTake(s: State, x: nat) {
    x in s.closers && s.closers[x].pc.WantTake?
  }

  /** The step sets a deadline that has not passed. */
  predicate SetsLive(s: State, step: Step) {
    step.SetDeadline? && !Expired(step.dl, s.now)
  }

  /** No live deadline is set until the close takes the handle, or finds it taken. */
  predicate NoLiveSetBeforeTake(s: State, run: seq<Step>, x: nat)
    requires Legal(s, run)
    decreases |run|
  {
    run == [] || !BeforeTake(s, x)
    || (!SetsLive(s, run[0]) && NoLiveSetBeforeTake(Apply(s, run[0]), run[1..], x))
  }

  /** The close took the handle under a passed deadline, did not get it, or will take it under
      the one in force, which has passed. */
  predicate TakesTooLate(s: State, x: nat) {
    && x in s.closers && s.closers[x].order.ExpireThenTake?
    && if s.closers[x].pc.WantTake? then Expired(s.dl, s.now)
       else s.closers[x].sealed || (s.closers[x].pc.Over? && !s.closers[x].won)
  }

  lemma OtherStepKeepsTake(s: State, step: Step, x: nat)
    requires Inv(s) && Enabled(s, step) && step != CloseStep(x) && TakesTooLate(s, x)
    requires BeforeTake(s, x) ==> !SetsLive(s, step)
    ensures TakesTooLate(Apply(s, step), x) && (BeforeTake(Apply(s, step), x) ==> BeforeTake(s, x))
  {
    assert CloserInv(s, x, s.closers[x]);
    if IsLanding(step) { LandingLeaves(s, step); }
    else if IsTiming(step) { TimingLeaves(s, step); }
    else if IsClosing(step) { ClosingLeaves(s, step, x); }
    else { CallingOnly(s, step); }
  }

  lemma TimingLeaves(s: State, step: Step)
    requires Enabled(s, step) && IsTiming(step)
    ensures var s' := Apply(s, step); s'.closers == s.closers && s.now <= s'.now && (s'.dl == s.dl || (step.SetDeadline? && s'.dl == step.dl))
  {
    match step
    case SetDeadline(d) =>
    case SetCancel(k, r) =>
    case Expire(r) =>
    case Tick =>
  }

  lemma ClosingLeaves(s: State, step: Step, x: nat)
    requires Enabled(s, step) && IsClosing(step) && step != CloseStep(x) && x in s.closers
    requires CloserInv(s, x, s.closers[x])
    ensures var s' := Apply(s, step);
            && x in s'.closers && s'.now == s.now && (s'.dl == s.dl || s'.dl == At(PAST))
            && (s'.closers[x] == s.closers[x] || (s.closers[x].won && s'.closers[x] == s.closers[x].(pc := WantFree)))
  {
    match step
    case NewClose(z, conn, order) =>
    case CloseStep(z) =>
      DoCloseStep(s, z);
      CloseStepLeaves(s, z, x);
    case CloseLand(z) =>
    case CloseAbandon(z) =>
  }

  lemma CloseStepLeaves(s: State, z: nat, x: nat)
    requires CloseEnabled(s, z) && z != x && x in s.closers
    ensures var s' := CloseStepOf(s, z);
            && x in s'.closers && s'.closers[x] == s.closers[x] && s'.now == s.now
            && (s'.dl == s.dl || s'.dl == At(PAST))
  {
    CloseStepOnly(s, z);
    if s.closers[z].pc.WantTake? { TakeLeaves(s, z); }
  }

  lemma TakeLeaves(s: State, z: nat)
    requires z in s.closers
    ensures TakeHandle(s, z) == s.(closers := TakeHandle(s, z).closers, open := false)
  {
  }

  lemma OwnStepKeepsTake(s: State, x: nat)
    requires Inv(s) && CloseEnabled(s, x) && TakesTooLate(s, x)
    ensures TakesTooLate(Apply(s, CloseStep(x)), x)
    ensures BeforeTake(Apply(s, CloseStep(x)), x) ==> BeforeTake(s, x)
  {
    assert CloserInv(s, x, s.closers[x]);
    DoCloseStep(s, x);
  }

  lemma {:induction false} NeverStuck(s: State, run: seq<Step>, x: nat, c: nat)
    requires Inv(s) && TakesTooLate(s, x) && Legal(s, run) && NoLiveSetBeforeTake(s, run, x)
    ensures !StuckBehind(Exec(s, run), x, c)
    decreases |run|
  {
    if run == [] {
      assert CloserInv(s, x, s.closers[x]);
      if s.closers[x].sealed { SealedIsNeverStuck(s, x, c); }
    } else {
      if run[0] == CloseStep(x) { OwnStepKeepsTake(s, x); } else { OtherStepKeepsTake(s, run[0], x); }
      StepKeeps(s, run[0]);
      NeverStuck(Apply(s, run[0]), run[1..], x, c);
    }
  }

  // ---- under a live deadline ----------------------------------------------------------------

  /** Where the race stands: how far the call and the close are, and who holds what. */
  datatype Spot = Spot(pc: CallerPc, op: OpState, close: ClosePc, mu: Option<nat>, queue: seq<User>, open: bool)

  /** The state `t`, reached from `s` without touching deadlines, is at this spot. */
  ghost predicate IsAt(s: State, t: State, c: nat, x: nat, p: Spot) {
    && t.half == s.half && t.now == s.now && t.dl == s.dl && t.sets == s.sets
    && c in t.callers && x in t.closers
    && t.callers[c].pc == p.pc && t.callers[c].op == p.op && t.callers[c].p == [0] && t.callers[c].moved == []
    && t.closers[x].pc == p.close && t.closers[x].order.ExpireThenTake?
    && t.mu == p.mu && t.mutex == p.queue && t.open == p.open
    && (p.pc.Arming? ==> t.nextReg == s.nextReg)
    && (HoldsReg(p.pc) ==>
          && t.callers[c].reg == s.nextReg && s.nextReg in t.ctxs
          && t.ctxs[s.nextReg].err.None? && t.ctxs[s.nextReg].dl == s.dl)
  }

  /** One step from one spot to the next. */
  ghost predicate Moves(s: State, t: State, c: nat, x: nat, step: Step, p: Spot) {
    Enabled(t, step) && IsAt(s, Apply(t, step), c, x, p)
  }

  // What the steps of the race do, apart from when they may be taken.

  lemma DoNewCall(t: State, c: nat)
    requires c !in t.callers
    ensures Enabled(t, NewCall(c, [0], false))
    ensures Apply(t, NewCall(c, [0], false)) == PutC(t, c, Caller([0], false, Arming, 0, NoOp, [], 0, {}, 0))
  {
  }

  lemma DoArm(t: State, c: nat)
    requires c in t.callers && t.callers[c].pc.Arming?
    ensures Enabled(t, Arm(c)) && Apply(t, Arm(c)) == ArmStep(t, c)
  {
  }

  lemma DoGetHandle(t: State, c: nat)
    requires c in t.callers && t.callers[c].pc.Armed?
    ensures Enabled(t, GetHandle(c)) && Apply(t, GetHandle(c)) == GetHandleStep(t, c)
  {
  }

  lemma DoLock(t: State, c: nat)
    requires c in t.callers && t.callers[c].pc.HasHandle? && t.mu.None?
    ensures Enabled(t, Lock(c)) && Apply(t, Lock(c)) == PutC(t, c, t.callers[c].(pc := Locked)).(mu := Some(c))
  {
  }

  lemma DoIssue(t: State, c: nat)
    requires c in t.callers && t.callers[c].pc.Locked?
    ensures Enabled(t, Issue(c)) && Apply(t, Issue(c)) == IssueStep(t, c)
  {
  }

  lemma DoEnqueue(t: State, c: nat)
    requires OpIs(t, c, Issued)
    ensures Enabled(t, Enqueue(c))
    ensures Apply(t, Enqueue(c)) == PutC(t, c, t.callers[c].(op := Queued)).(mutex := t.mutex + [ByCaller(c)])
  {
  }

  lemma DoCloseStep(t: State, x: nat)
    requires CloseEnabled(t, x)
    ensures Enabled(t, CloseStep(x)) && Apply(t, CloseStep(x)) == CloseStepOf(t, x)
  {
  }

  lemma CallStarts(s: State, c: nat, x: nat)
    requires AboutToTake(s, x) && s.mutex == [] && c !in s.callers
    ensures Moves(s, s, c, x, NewCall(c, [0], false), Spot(Arming, NoOp, WantTake, None, [], true))
  {
    DoNewCall(s, c);
  }

  lemma CallArms(s: State, t: State, c: nat, x: nat)
    requires !Expired(s.dl, s.now) && IsAt(s, t, c, x, Spot(Arming, NoOp, WantTake, None, [], true))
    ensures Moves(s, t, c, x, Arm(c), Spot(Armed, NoOp, WantTake, None, [], true))
  {
    DoArm(t, c);
  }

  lemma CallGetsHandle(s: State, t: State, c: nat, x: nat)
    requires IsAt(s, t, c, x, Spot(Armed, NoOp, WantTake, None, [], true))
    ensures Moves(s, t, c, x, GetHandle(c), Spot(HasHandle, NoOp, WantTake, None, [], true))
  {
    DoGetHandle(t, c);
  }

  lemma CloseTakes(s: State, t: State, c: nat, x: nat)
    requires IsAt(s, t, c, x, Spot(HasHandle, NoOp, WantTake, None, [], true))
    ensures Moves(s, t, c, x, CloseStep(x), Spot(HasHandle, NoOp, WantIssue, None, [], false))
  {
    DoCloseStep(t, x);
  }

  lemma CallLocks(s: State, t: State, c: nat, x: nat)
    requires IsAt(s, t, c, x, Spot(HasHandle, NoOp, WantIssue, None, [], false))
    ensures Moves(s, t, c, x, Lock(c), Spot(Locked, NoOp, WantIssue, Some(c), [], false))
  {
    DoLock(t, c);
  }

  lemma CallIssues(s: State, t: State, c: nat, x: nat)
    requires IsAt(s, t, c, x, Spot(Locked, NoOp, WantIssue, Some(c), [], false))
    ensures Moves(s, t, c, x, Issue(c), Spot(InOp, Issued, WantIssue, Some(c), [], false))
  {
    DoIssue(t, c);
  }

  lemma CallQueues(s: State, t: State, c: nat, x: nat)
    requires IsAt(s, t, c, x, Spot(InOp, Issued, WantIssue, Some(c), [], false))
    ensures Moves(s, t, c, x, Enqueue(c), Spot(InOp, Queued, WantIssue, Some(c), [ByCaller(c)], false))
  {
    DoEnqueue(t, c);
    assert [] + [ByCaller(c)] == [ByCaller(c)];
  }

  lemma CloseIssues(s: State, t: State, c: nat, x: nat)
    requires IsAt(s, t, c, x, Spot(InOp, Queued, WantIssue, Some(c), [ByCaller(c)], false))
    ensures Moves(s, t, c, x, CloseStep(x), Spot(InOp, Queued, CloseIssued, Some(c), [ByCaller(c)], false))
  {
    DoCloseStep(t, x);
  }

  lemma CloseQueues(s: State, t: State, c: nat, x: nat)
    requires IsAt(s, t, c, x, Spot(InOp, Queued, CloseIssued, Some(c), [ByCaller(c)], false))
    ensures Moves(s, t, c, x, CloseStep(x),
                  Spot(InOp, Queued, CloseQueued, Some(c), [ByCaller(c), ByCloser(x)], false))
  {
    DoCloseStep(t, x);
    assert [ByCaller(c)] + [ByCloser(x)] == [ByCaller(c), ByCloser(x)];
  }

  /** The end of the race, if the registration is one no earlier `set` knows. */
  lemma EndIsStuck(s: State, t: State, c: nat, x: nat)
    requires Inv(s) && !Expired(s.dl, s.now)
    requires IsAt(s, t, c, x, Spot(InOp, Queued, CloseQueued, Some(c), [ByCaller(c), ByCloser(x)], false))
    ensures StuckBehind(t, x, c)
  {
    forall k | 0 <= k < |t.sets| ensures s.nextReg !in t.sets[k].pending {
      assert SetInv(s, k) && CtxInv(s, s.nextReg);
    }
    assert ByCloser(x) in t.mutex;
  }

  /** With the handle open and no call inside, nobody waits for the stream. */
  lemma NobodyQueued(s: State)
    requires Inv(s) && s.open && s.mu.None?
    ensures s.mutex == []
  {
    forall x | x in s.closers ensures ByCloser(x) !in s.mutex { assert CloserInv(s, x, s.closers[x]); }
    forall c | c in s.callers ensures ByCaller(c) !in s.mutex { Known(s, c); }
    assert s.mutex != [] ==> UserInv(s, s.mutex[0]);
  }

  lemma SomeFreshCall(s: State) returns (c: nat)
    ensures c !in s.callers
  {
    var n := |s.callers.Keys| + 1;
    UpToSize(n);
    if UpTo(n) <= s.callers.Keys { SubsetSize(UpTo(n), s.callers.Keys); }
    c :| c in UpTo(n) && c !in s.callers;
  }

  lemma {:induction false} Extend(s: State, run: seq<Step>, step: Step)
    requires Legal(s, run) && Enabled(Exec(s, run), step)
    ensures Legal(s, run + [step]) && Exec(s, run + [step]) == Apply(Exec(s, run), step)
    decreases |run|
  {
    if run == [] {
      assert run + [step] == [step];
    } else {
      assert (run + [step])[0] == run[0] && (run + [step])[1..] == run[1..] + [step];
      Extend(Apply(s, run[0]), run[1..], step);
    }
  }

  /** No step of the run is a deadline change, and none is another close's. */
  predicate LeavesDeadline(run: seq<Step>, x: nat) {
    forall k :: 0 <= k < |run| ==> !run[k].SetDeadline? && (run[k].CloseStep? ==> run[k].x == x)
  }

  lemma {:induction false} NoSetInRace(s: State, run: seq<Step>, x: nat)
    requires Legal(s, run) && LeavesDeadline(run, x)
    ensures NoLiveSetBeforeTake(s, run, x)
    decreases |run|
  {
    if run != [] {
      forall k | 0 <= k < |run[1..]| ensures run[1..][k] == run[k + 1] {}
      NoSetInRace(Apply(s, run[0]), run[1..], x);
    }
  }

  /** One more step at the end of a run that leads to a spot. */
  lemma Then(s: State, run: seq<Step>, c: nat, x: nat, step: Step, p: Spot) returns (longer: seq<Step>)
    requires Legal(s, run) && Moves(s, Exec(s, run), c, x, step, p)
    requires LeavesDeadline(run, x) && LeavesDeadline([step], x)
    ensures Legal(s, longer) && IsAt(s, Exec(s, longer), c, x, p) && LeavesDeadline(longer, x)
  {
    longer := run + [step];
    Extend(s, run, step);
    assert [step][0] == step;
  }

  /** A close about to take the handle, which is open, with the stream free. */
  predicate AboutToTake(s: State, x: nat) {
    BeforeTake(s, x) && s.closers[x].order.ExpireThenTake? && s.open && s.mu.None?
  }

  /** The call gets in under the live deadline, up to the close's take. */
  lemma CallGetsIn(s: State, x: nat, c: nat) returns (run: seq<Step>)
    requires Inv(s) && AboutToTake(s, x) && !Expired(s.dl, s.now) && c !in s.callers
    ensures Legal(s, run) && LeavesDeadline(run, x)
    ensures IsAt(s, Exec(s, run), c, x, Spot(HasHandle, NoOp, WantTake, None, [], true))
  {
    NobodyQueued(s);
    CallStarts(s, c, x);
    run := Then(s, [], c, x, NewCall(c, [0], false), Spot(Arming, NoOp, WantTake, None, [], true));
    CallArms(s, Exec(s, run), c, x);
    run := Then(s, run, c, x, Arm(c), Spot(Armed, NoOp, WantTake, None, [], true));
    CallGetsHandle(s, Exec(s, run), c, x);
    run := Then(s, run, c, x, GetHandle(c), Spot(HasHandle, NoOp, WantTake, None, [], true));
  }

  lemma CallGetsAhead(s: State, x: nat, c: nat, run: seq<Step>) returns (longer: seq<Step>)
    requires Legal(s, run) && LeavesDeadline(run, x)
    requires IsAt(s, Exec(s, run), c, x, Spot(HasHandle, NoOp, WantTake, None, [], true))
    ensures Legal(s, longer) && LeavesDeadline(longer, x)
    ensures IsAt(s, Exec(s, longer), c, x, Spot(InOp, Queued, WantIssue, Some(c), [ByCaller(c)], false))
  {
    CloseTakes(s, Exec(s, run), c, x);
    longer := Then(s, run, c, x, CloseStep(x), Spot(HasHandle, NoOp, WantIssue, None, [], false));
    CallLocks(s, Exec(s, longer), c, x);
    longer := Then(s, longer, c, x, Lock(c), Spot(Locked, NoOp, WantIssue, Some(c), [], false));
    CallIssues(s, Exec(s, longer), c, x);
    longer := Then(s, longer, c, x, Issue(c), Spot(InOp, Issued, WantIssue, Some(c), [], false));
    CallQueues(s, Exec(s, longer), c, x);
    longer := Then(s, longer, c, x, Enqueue(c), Spot(InOp, Queued, WantIssue, Some(c), [ByCaller(c)], false));
  }

  /** From every state in which a close is about to take the handle under a live deadline, a
      call may get in and keep it waiting. */
  lemma LiveTakeCanStick(s: State, x: nat) returns (run: seq<Step>, c: nat)
    requires Inv(s) && AboutToTake(s, x) && !Expired(s.dl, s.now)
    ensures Legal(s, run) && NoLiveSetBeforeTake(s, run, x) && StuckBehind(Exec(s, run), x, c)
  {
    c := SomeFreshCall(s);
    var start := CallGetsIn(s, x, c);
    run := CallGetsAhead(s, x, c, start);
    var p := Spot(InOp, Queued, CloseIssued, Some(c), [ByCaller(c)], false);
    CloseIssues(s, Exec(s, run), c, x);
    run := Then(s, run, c, x, CloseStep(x), p);
    CloseQueues(s, Exec(s, run), c, x);
    run := Then(s, run, c, x, CloseStep(x),
                Spot(InOp, Queued, CloseQueued, Some(c), [ByCaller(c), ByCloser(x)], false));
    EndIsStuck(s, Exec(s, run), c, x);
    NoSetInRace(s, run, x);
  }

  // ---- the two together ---------------------------------------------------------------------

  /** This run does not leave the close stuck behind call `c`. */
  ghost predicate Escapes(s: State, run: seq<Step>, x: nat, c: nat) {
    Legal(s, run) && NoLiveSetBeforeTake(s, run, x) ==> !StuckBehind(Exec(s, run), x, c)
  }

  /** The exact guard. When a close that expires first is about to take the handle, no run
      that sets no live deadline until then can leave it stuck, if and only if the
      deadline in force has passed. */
  lemma {:induction false} TakeGuardIsExact(s: State, x: nat)
    requires Inv(s) && AboutToTake(s, x)
    ensures Expired(s.dl, s.now) <==> forall run, c :: Escapes(s, run, x, c)
  {
    if Expired(s.dl, s.now) {
      forall run, c ensures Escapes(s, run, x, c) {
        if Legal(s, run) && NoLiveSetBeforeTake(s, run, x) { NeverStuck(s, run, x, c); }
      }
    } else {
      var run, c := LiveTakeCanStick(s, x);
      assert !Escapes(s, run, x, c);
    }
  }

  // ---- such a state is reached ----------------------------------------------------------------

  /** A RecvStream.Close that expired the deadline, with what other sets did since. */
  function Expiring(pc: ClosePc, sets: seq<SetRec>, live: nat, dl: Deadline): State {
    Init(RecvHalf, []).(closers := map[0 := Closer(false, ExpireThenTake, pc, false, Some(0), false, false)],
                        sets := sets, lastLive := live, dl := dl)
  }

  function Begun(): State {
    Init(RecvHalf, []).(closers := map[0 := Closer(false, ExpireThenTake, WantExpire, false, None, false, false)])
  }

  lemma Reach(run: seq<Step>, s: State, step: Step, s': State) returns (longer: seq<Step>)
    requires Legal(Init(RecvHalf, []), run) && Exec(Init(RecvHalf, []), run) == s
    requires Enabled(s, step) && Apply(s, step) == s'
    ensures Legal(Init(RecvHalf, []), longer) && Exec(Init(RecvHalf, []), longer) == s'
  {
    longer := run + [step];
    Extend(Init(RecvHalf, []), run, step);
  }

  lemma CloseBegins() returns (run: seq<Step>)
    ensures Legal(Init(RecvHalf, []), run) && Exec(Init(RecvHalf, []), run) == Begun()
  {
    var s0 := Init(RecvHalf, []);
    run := Reach([], s0, NewClose(0, false, ExpireThenTake), Apply(s0, NewClose(0, false, ExpireThenTake)));
    run := Reach(run, Apply(s0, NewClose(0, false, ExpireThenTake)), CloseStep(0), Begun());
  }

  lemma CloseExpires() returns (run: seq<Step>)
    ensures Legal(Init(RecvHalf, []), run)
    ensures Exec(Init(RecvHalf, []), run) == Expiring(Cancelling, [SetRec({}, {})], 0, At(PAST))
  {
    run := CloseBegins();
    DoCloseStep(Begun(), 0);
    run := Reach(run, Begun(), CloseStep(0), Expiring(Cancelling, [SetRec({}, {})], 0, At(PAST)));
  }

  /** Before it takes the handle, someone clears the deadline. */
  lemma SomeoneClears() returns (run: seq<Step>)
    ensures Legal(Init(RecvHalf, []), run)
    ensures Exec(Init(RecvHalf, []), run) == Expiring(WantTake, [SetRec({}, {}), SetRec({}, {})], 2, Never)
  {
    run := CloseExpires();
    var s := Expiring(Cancelling, [SetRec({}, {})], 0, At(PAST));
    var t := Expiring(Cancelling, [SetRec({}, {}), SetRec({}, {})], 2, Never);
    run := Reach(run, s, SetDeadline(Never), t);
    DoCloseStep(t, 0);
    run := Reach(run, t, CloseStep(0), Expiring(WantTake, [SetRec({}, {}), SetRec({}, {})], 2, Never));
  }

  lemma {:induction false} Concat(s: State, run: seq<Step>, rest: seq<Step>)
    requires Legal(s, run) && Legal(Exec(s, run), rest)
    ensures Legal(s, run + rest) && Exec(s, run + rest) == Exec(Exec(s, run), rest)
    decreases |run|
  {
    if run == [] {
      assert run + rest == rest;
    } else {
      assert (run + rest)[0] == run[0] && (run + rest)[1..] == run[1..] + rest;
      Concat(Apply(s, run[0]), run[1..], rest);
    }
  }

  /** So from the start, with one Close, one SetReadDeadline and one Read, the stop can end up
      queued behind a Read that nothing but the peer, or a further deadline change, ends. */
  lemma RecvCloseCanWaitForThePeer() returns (run: seq<Step>, c: nat)
    ensures Legal(Init(RecvHalf, []), run) && StuckBehind(Exec(Init(RecvHalf, []), run), 0, c)
  {
    var start := SomeoneClears();
    var s := Exec(Init(RecvHalf, []), start);
    InitInv(RecvHalf, []);
    RunKeeps(Init(RecvHalf, []), start);
    var rest;
    rest, c := LiveTakeCanStick(s, 0);
    Concat(Init(RecvHalf, []), start, rest);
    run := start + rest;
  }
}
