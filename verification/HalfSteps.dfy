/** Every step of a stream half keeps its invariant.

    The parts follow the groups of steps: what a step leaves alone; the steps of Read and
    Write calls, from getting the handle to an operation landing; arming, releasing and
    deadline changes, where the contexts and the copied registrations move; and closing. A
    step's lemma about the one call or close it changes comes before the lemma that the whole
    invariant is kept. The last lemmas put the groups together for every step and every run;
    HalfTheorems draws the conclusions. */
module HalfSteps {
  import opened Common
  import opened OpTypes
  import opened StreamHalf
  import opened HalfInvariant

  // ==== what a step leaves alone ==========================================================

  // ---- logs ---------------------------------------------------------------------

  lemma OfAppend(log: seq<Chunk>, e: Chunk, c: nat)
    ensures Of(log + [e], c) == Of(log, c) + (if e.call == c then e.data else [])
    ensures Flatten(log + [e]) == Flatten(log) + e.data
  {
    assert (log + [e])[..|log|] == log;
  }

  lemma {:induction false} OfNobody(log: seq<Chunk>, c: nat)
    requires forall i :: 0 <= i < |log| ==> log[i].call != c
    ensures Of(log, c) == []
  {
    if log != [] { OfNobody(log[..|log| - 1], c); }
  }

  lemma {:induction false} WithoutProps(m: seq<User>, u: User)
    requires NoDup(m)
    ensures NoDup(Without(m, u)) && u !in Without(m, u)
    ensures forall v :: v in Without(m, u) <==> v in m && v != u
    ensures |Without(m, u)| == |m| - Ind(u in m)
  {
    if m != [] {
      if m[0] == u {
        assert forall v :: v in m <==> v == u || v in m[1..];
      } else {
        WithoutProps(m[1..], u);
        assert forall v :: v in m <==> v == m[0] || v in m[1..];
        var w := Without(m[1..], u);
        assert m[0] !in w;
        assert forall v :: v in [m[0]] + w <==> v == m[0] || v in w;
      }
    }
  }

  // ---- frames -----------------------------------------------------------------------

  predicate RegKept(s: State, s': State, c: nat) {
    && c in s.callers && c in s'.callers
    && s'.callers[c].reg == s.callers[c].reg
    && (HoldsReg(s.callers[c].pc) ==> HoldsReg(s'.callers[c].pc))
  }

  /** Contexts and registrations survive a step that keeps them and every call's own. */
  lemma CtxFrame(s: State, s': State)
    requires CtxsInv(s)
    requires s'.armed == s.armed && s'.ctxs == s.ctxs && s'.sets == s.sets && s'.nextReg == s.nextReg && s'.dl == s.dl
    requires s'.lastLive == s.lastLive && (s.connClosed ==> s'.connClosed) && s.now <= s'.now
    requires forall c :: c in s.callers ==> RegKept(s, s', c)
    ensures CtxsInv(s')
  {
    forall r ensures CtxInv(s', r) { assert CtxInv(s, r); }
    forall r, k | r in s'.armed ensures SeenBy(s', r, k) { assert SeenBy(s, r, k); }
    forall k ensures SetInv(s', k) { assert SetInv(s, k); }
  }

  /** What call `j` looks at is as it was, or has grown in a way that does not matter. */
  ghost predicate CallerKept(s: State, s': State, j: nat) {
    && j in s.callers && j in s'.callers && s'.callers[j] == s.callers[j]
    && s'.half == s.half
    && Of(s'.log, j) == Of(s.log, j)
    && (ByCaller(j) in s'.mutex <==> ByCaller(j) in s.mutex)
    && (s'.mu == Some(j) <==> s.mu == Some(j))
    && s.nextReg <= s'.nextReg
    && (forall r :: r in s.ctxs ==> r in s'.ctxs && s'.ctxs[r].owner == s.ctxs[r].owner)
    && (HoldsReg(s.callers[j].pc) && s.callers[j].reg in s.armed ==> s.callers[j].reg in s'.armed)
    && (s.callers[j].reg in s.ctxs && s.ctxs[s.callers[j].reg].err.Some? ==>
          s'.ctxs[s.callers[j].reg].err == s.ctxs[s.callers[j].reg].err
          && s'.ctxs[s.callers[j].reg].killer == s.ctxs[s.callers[j].reg].killer)
    && |s.sets| <= |s'.sets|
    && (forall k :: 0 <= k < |s.sets| ==> s'.sets[k].snapshot == s.sets[k].snapshot)
  }

  lemma CallerFrame(s: State, s': State, j: nat)
    requires CallersInv(s) && CallerKept(s, s', j)
    ensures var y := s'.callers[j];
            BytesInv(s', j, y) && RegInv(s', j, y) && ResumeInv(s', j, y) && MutexInv(s', j, y)
  {
    var y := s.callers[j];
    assert BytesInv(s, j, y) && RegInv(s, j, y) && ResumeInv(s, j, y) && MutexInv(s, j, y);
    HitsKept(s, s', j, y, y);
  }

  /** Earlier hits stay hits while contexts and snapshots only grow. */
  lemma HitsKept(s: State, s': State, j: nat, y: Caller, y': Caller)
    requires ResumeInv(s, j, y) && y'.hits == y.hits && y'.resumes == y.resumes
    requires Frontier(s, y) <= Frontier(s', y')
    requires forall r :: r in s.ctxs ==> r in s'.ctxs && s'.ctxs[r].owner == s.ctxs[r].owner
    requires |s.sets| <= |s'.sets|
    requires forall k :: 0 <= k < |s.sets| ==> s'.sets[k].snapshot == s.sets[k].snapshot
    ensures ResumeInv(s', j, y')
  {
    forall k | k in y'.hits ensures Hit(s', j, y', k) {
      assert Hit(s, j, y, k);
      var r :| r in s.sets[k].snapshot && r in s.ctxs && s.ctxs[r].owner == j && r < Frontier(s, y);
      assert r in s'.sets[k].snapshot;
    }
  }

  /** All calls but `c` are untouched, so only `c` is left to check. */
  lemma CallersFrame(s: State, s': State, c: nat)
    requires CallersInv(s)
    requires forall j :: j in s'.callers && j != c ==> CallerKept(s, s', j)
    requires c in s'.callers ==>
               var y := s'.callers[c];
               BytesInv(s', c, y) && RegInv(s', c, y) && ResumeInv(s', c, y) && MutexInv(s', c, y)
    ensures CallersInv(s')
  {
    forall j | j in s'.callers
      ensures var y := s'.callers[j];
              BytesInv(s', j, y) && RegInv(s', j, y) && ResumeInv(s', j, y) && MutexInv(s', j, y)
    {
      if j != c {
        assert CallerKept(s, s', j);
        CallerFrame(s, s', j);
      }
    }
  }

  /** Call `c` already had the handle, under the same context, no less doomed. */
  ghost predicate GripKept(s: State, s': State, c: nat) {
    && c in s.callers && c in s'.callers
    && HasOpenedHandle(s.callers[c].pc)
    && var r := s.callers[c].reg;
       && s'.callers[c].reg == r
       && (r in s'.ctxs ==> r in s.ctxs && s'.ctxs[r].gen == s.ctxs[r].gen
                            && (s.ctxs[r].err.Some? ==> s'.ctxs[r].err.Some?))
       && (Doomed(s, r) ==> Doomed(s', r))
  }

  /** What is doomed stays so while its context is kept and no `set` forgets it. */
  lemma StillDoomed(s: State, s': State, r: nat)
    requires s'.ctxs == s.ctxs && s.now <= s'.now && |s.sets| <= |s'.sets|
    requires forall k :: 0 <= k < |s.sets| ==> s'.sets[k].pending == s.sets[k].pending
    ensures Doomed(s, r) ==> Doomed(s', r)
  {
    if k :| 0 <= k < |s.sets| && r in s.sets[k].pending { assert r in s'.sets[k].pending; }
  }

  /** Closers see neither logs nor calls, except for who got the handle. */
  lemma ClosersFrame(s: State, s': State)
    requires ClosersInv(s)
    requires s'.closers == s.closers && s'.open == s.open && s'.terminals == s.terminals && s'.freed == s.freed
    requires s.connClosed ==> s'.connClosed
    requires |s'.sets| == |s.sets|
    requires forall k :: 0 <= k < |s.sets| ==> s'.sets[k].pending <= s.sets[k].pending
    requires forall x :: ByCloser(x) in s'.mutex <==> ByCloser(x) in s.mutex
    requires !s.open ==> forall c :: c in s'.callers && HasOpenedHandle(s'.callers[c].pc) ==> GripKept(s, s', c)
    ensures ClosersInv(s')
  {
    forall x | x in s'.closers ensures CloserInv(s', x, s'.closers[x]) {
      assert CloserInv(s, x, s.closers[x]);
    }
    forall x, z ensures OneWinner(s', x, z) { assert OneWinner(s, x, z); }
    forall c, x ensures Covered(s', c, x) {
      assert Covered(s, c, x);
      if x in s.closers { assert CloserInv(s, x, s.closers[x]); }
    }
    forall c, x ensures Trapped(s', c, x) {
      assert Trapped(s, c, x);
      if x in s.closers { assert CloserInv(s, x, s.closers[x]); }
    }
  }

  // ==== the steps of Read and Write calls =================================================

  /** A step that rewrites only call `c`, the mutexes and the log. */
  ghost predicate CallStep(s: State, s': State, c: nat, y': Caller) {
    && c in s.callers
    && s' == s.(callers := s.callers[c := y'], mu := s'.mu, mutex := s'.mutex, log := s'.log)
    && y'.reg == s.callers[c].reg && (HoldsReg(s.callers[c].pc) <==> HoldsReg(y'.pc))
    && y'.hits == s.callers[c].hits && y'.resumes == s.callers[c].resumes && y'.p == s.callers[c].p
    && (HasOpenedHandle(y'.pc) ==> HasOpenedHandle(s.callers[c].pc) || s.open)
    && (s'.mu == s.mu || ((s.mu == Some(c) || s.mu.None?) && (s'.mu == Some(c) || s'.mu.None?)))
    && (forall u :: u != ByCaller(c) ==> (u in s'.mutex <==> u in s.mutex))
    && (s'.log == s.log || exists chunk :: s'.log == s.log + [Chunk(c, chunk)])
  }

  lemma CallStepKeeps(s: State, s': State, c: nat, y': Caller)
    requires Inv(s) && CallStep(s, s', c, y')
    requires BytesInv(s', c, y') && MutexInv(s', c, y') && RegInv(s', c, y')
    requires NoDup(s'.mutex)
    requires s.half.RecvHalf? ==> Flatten(s'.log) <= s'.source
    ensures Inv(s')
  {
    CtxFrame(s, s');
    forall j | j in s'.callers && j != c ensures CallerKept(s, s', j) {
      if s'.log != s.log {
        var chunk :| s'.log == s.log + [Chunk(c, chunk)];
        OfAppend(s.log, Chunk(c, chunk), j);
      }
    }
    assert ResumeInv(s, c, s.callers[c]);
    HitsKept(s, s', c, s.callers[c], y');
    CallersFrame(s, s', c);
    ClosersFrame(s, s');
    CallStepShared(s, s', c, y');
  }

  lemma CallStepShared(s: State, s': State, c: nat, y': Caller)
    requires SharedInv(s) && CallStep(s, s', c, y') && NoDup(s'.mutex)
    requires s.half.RecvHalf? ==> Flatten(s'.log) <= s'.source
    ensures SharedInv(s')
  {
    forall i | 0 <= i < |s'.mutex| ensures UserInv(s', s'.mutex[i]) {
      var u := s'.mutex[i];
      if u != ByCaller(c) {
        assert u in s.mutex;
        var k :| 0 <= k < |s.mutex| && s.mutex[k] == u;
        assert UserInv(s, s.mutex[k]);
      }
    }
    if s'.log != s.log {
      var chunk :| s'.log == s.log + [Chunk(c, chunk)];
      assert forall i :: 0 <= i < |s.log| ==> s'.log[i] == s.log[i];
    }
  }

  lemma Known(s: State, c: nat)
    requires Inv(s) && c in s.callers
    ensures var y := s.callers[c];
            BytesInv(s, c, y) && RegInv(s, c, y) && ResumeInv(s, c, y) && MutexInv(s, c, y)
  {
    assert BytesInv(s, c, s.callers[c]);
  }

  // ---- moving on without the library ----------------------------------------------

  lemma GetHandleKeeps(s: State, c: nat)
    requires Inv(s) && Enabled(s, GetHandle(c))
    ensures Inv(GetHandleStep(s, c))
  {
    Known(s, c);
    var s' := GetHandleStep(s, c);
    var y' := s'.callers[c];
    assert BytesInv(s', c, y') && MutexInv(s', c, y') && RegInv(s', c, y');
    CallStepKeeps(s, s', c, y');
  }

  lemma LockKeeps(s: State, c: nat)
    requires Inv(s) && Enabled(s, Lock(c))
    ensures Inv(Apply(s, Lock(c)))
  {
    Known(s, c);
    var s' := PutC(s, c, s.callers[c].(pc := Locked)).(mu := Some(c));
    var y' := s'.callers[c];
    assert BytesInv(s', c, y') && MutexInv(s', c, y') && RegInv(s', c, y');
    CallStepKeeps(s, s', c, y');
  }

  /** A step inside the context-taking call touches the record and perhaps its mutex. */
  lemma WithinShape(s: State, c: nat, y': Caller)
    requires c in s.callers && MutexInv(s, c, s.callers[c]) && !s.callers[c].op.Queued?
    requires s.callers[c].pc.Locked? || s.callers[c].pc.InOp?
    requires y' == s.callers[c].(moved := y'.moved, pc := y'.pc, op := y'.op, issued := y'.issued) && !y'.op.Queued?
    requires y'.pc.Locked? || y'.pc.InOp? || y'.pc.Leaving?
    ensures CallStep(s, Within(s, c, y'), c, y')
    ensures MutexInv(Within(s, c, y'), c, y')
  {
  }

  /** A turn of the loop issues an operation, or leaves with nothing more to move. */
  lemma IssueShape(half: Half, y: Caller)
    requires y.pc.Locked? && ShapeInv(half, y) && (half.SendHalf? ==> SendInv(y))
    requires half.RecvHalf? ==> |y.moved| <= |y.p|
    ensures var y' := if Remaining(half, y) > 0 then y.(pc := InOp, op := Issued, issued := y.issued + 1) else Left(y, None);
            && ShapeInv(half, y') && (half.SendHalf? ==> SendInv(y'))
            && y'.moved + Inflight(y') == y.moved + Inflight(y)
  {
    if half.SendHalf? { assert y.moved + [] == y.moved; }
  }

  lemma IssueBytes(s: State, c: nat)
    requires Enabled(s, Issue(c)) && BytesInv(s, c, s.callers[c]) && RegInv(s, c, s.callers[c])
    ensures var s' := IssueStep(s, c);
            BytesInv(s', c, s'.callers[c]) && RegInv(s', c, s'.callers[c])
  {
    var y := s.callers[c];
    assert y.moved + [] == y.moved;
    IssueShape(s.half, y);
  }

  lemma IssueKeeps(s: State, c: nat)
    requires Inv(s) && Enabled(s, Issue(c))
    ensures Inv(IssueStep(s, c))
  {
    Known(s, c);
    IssueBytes(s, c);
    var y' := IssueStep(s, c).callers[c];
    WithinShape(s, c, y');
    CallStepKeeps(s, IssueStep(s, c), c, y');
  }

  lemma EnqueueKeeps(s: State, c: nat)
    requires Inv(s) && Enabled(s, Enqueue(c))
    ensures Inv(Apply(s, Enqueue(c)))
  {
    Known(s, c);
    var s' := PutC(s, c, s.callers[c].(op := Queued)).(mutex := s.mutex + [ByCaller(c)]);
    var y' := s'.callers[c];
    assert BytesInv(s', c, y') && MutexInv(s', c, y') && RegInv(s', c, y');
    CallStepKeeps(s, s', c, y');
  }

  // ---- landing ----------------------------------------------------------------------

  /** A landing without bytes: a failure, a clean end, a stop, a handle already gone. */
  lemma DryLandKeeps(s: State, c: nat, out: Outcome)
    requires Inv(s) && (OpIs(s, c, Issued) || OpIs(s, c, Queued))
    requires out.Err? || (s.half.RecvHalf? && out == Ok(Eof))
    ensures Inv(Land(s, c, out, [], s.log))
  {
    Known(s, c);
    WithoutProps(s.mutex, ByCaller(c));
    var s' := Land(s, c, out, [], s.log);
    var y' := s'.callers[c];
    assert y'.moved + Inflight(y') == s.callers[c].moved + Inflight(s.callers[c]);
    assert BytesInv(s', c, y') && MutexInv(s', c, y') && RegInv(s', c, y');
    CallStepKeeps(s, s', c, y');
  }

  lemma LeftBytes(s: State, c: nat, y': Caller, err: Option<GoErr>)
    requires c in s.callers && s.callers[c].pc.InOp? && s.callers[c].op.Landed? && BytesInv(s, c, s.callers[c])
    requires var y := s.callers[c]; y' == y.(moved := y.moved + y.op.chunk)
    requires PlainErr(err) && (ErrIsFromContext(err) ==> s.callers[c].op.out.Err?)
    requires s.half.SendHalf? ==> err.Some?
    ensures BytesInv(Within(s, c, Left(y', err)), c, Left(y', err))
  {
    var y'' := Left(y', err);
    assert y''.moved + Inflight(y'') == y''.moved;
  }

  function Moved(s: State, c: nat, chunk: seq<byte>): State
    requires c in s.callers
  {
    Land(s, c, Ok(if s.half.SendHalf? then U64(|chunk|) else Bytes(chunk)), chunk, s.log + [Chunk(c, chunk)])
  }

  lemma LandMoveBytes(s: State, c: nat, chunk: seq<byte>)
    requires Enabled(s, LandMove(c, chunk)) && BytesInv(s, c, s.callers[c])
    ensures BytesInv(Moved(s, c, chunk), c, Moved(s, c, chunk).callers[c])
  {
    var y, s' := s.callers[c], Moved(s, c, chunk);
    var y' := s'.callers[c];
    OfAppend(s.log, Chunk(c, chunk), c);
    assert y.moved + Inflight(y) == y.moved;
    if s.half.SendHalf? {
      assert y.p[|y.moved|..][..|chunk|] == y.p[|y.moved|..|y.moved| + |chunk|];
      assert y'.moved + Inflight(y') == y.p[..|y.moved| + |chunk|];
    }
  }

  lemma LandMoveKeeps(s: State, c: nat, chunk: seq<byte>)
    requires Inv(s) && Enabled(s, LandMove(c, chunk))
    ensures Inv(Moved(s, c, chunk))
  {
    Known(s, c);
    WithoutProps(s.mutex, ByCaller(c));
    OfAppend(s.log, Chunk(c, chunk), c);
    var s' := Moved(s, c, chunk);
    var y' := s'.callers[c];
    LandMoveBytes(s, c, chunk);
    assert MutexInv(s', c, y') && RegInv(s', c, y');
    CallStepKeeps(s, s', c, y');
  }

  lemma ReturnBytes(s: State, c: nat, ret: Ret)
    requires ReturnEnabled(s, c, ret) && BytesInv(s, c, s.callers[c])
    ensures BytesInv(ReturnStep(s, c, ret), c, AfterReturn(s, c, ret))
  {
    var y := s.callers[c];
    var y' := y.(moved := y.moved + y.op.chunk);
    if !ret.Value? {
      assert y' == y by { assert y.moved + [] == y.moved; }
      LeftBytes(s, c, y', if ret.Failed? then Some(EKind(ret.kind)) else Some(GoErrOf(s.ctxs[y.reg].err.value)));
    } else if s.half.RecvHalf? {
      LeftBytes(s, c, y', if ret.v.Eof? then Some(EEof) else None);
    } else if y.op.chunk == [] {
      LeftBytes(s, c, y', Some(EKind(ErrKind.Stream)));
    } else {
      assert y'.moved + [] == y.moved + y.op.chunk;
    }
  }

  lemma AfterReturnShape(s: State, c: nat, ret: Ret)
    requires ReturnEnabled(s, c, ret)
    ensures var y, y' := s.callers[c], AfterReturn(s, c, ret);
            && y' == y.(moved := y'.moved, pc := y'.pc, op := NoOp)
            && (y'.pc.Locked? || y'.pc.Leaving?)
            && (y'.pc.Leaving? && ErrIsFromContext(y'.pc.err) ==>
                  y.reg in s.ctxs && s.ctxs[y.reg].err.Some? && y'.pc.err == Some(GoErrOf(s.ctxs[y.reg].err.value)))
  {
  }

  lemma ReturnKeeps(s: State, c: nat, ret: Ret)
    requires Inv(s) && ReturnEnabled(s, c, ret)
    ensures Inv(ReturnStep(s, c, ret))
  {
    Known(s, c);
    assert CtxInv(s, s.callers[c].reg);
    ReturnBytes(s, c, ret);
    AfterReturnShape(s, c, ret);
    var y' := AfterReturn(s, c, ret);
    WithinShape(s, c, y');
    assert RegInv(ReturnStep(s, c, ret), c, y');
    CallStepKeeps(s, ReturnStep(s, c, ret), c, y');
  }

  // ==== arming, releasing and deadline changes ============================================

  lemma NewCallKeeps(s: State, c: nat, p: seq<byte>, v: bool)
    requires Inv(s) && c !in s.callers
    ensures Inv(PutC(s, c, Caller(p, v, Arming, 0, NoOp, [], 0, {}, 0)))
  {
    var y := Caller(p, v, Arming, 0, NoOp, [], 0, {}, 0);
    var s' := PutC(s, c, y);
    OfNobody(s.log, c);
    assert forall i :: 0 <= i < |s.mutex| ==> UserInv(s, s.mutex[i]) && s.mutex[i] != ByCaller(c);
    CtxFrame(s, s');
    assert BytesInv(s', c, y) && RegInv(s', c, y) && ResumeInv(s', c, y) && MutexInv(s', c, y);
    CallersFrame(s, s', c);
    ClosersFrame(s, s');
    forall i | 0 <= i < |s'.mutex| ensures UserInv(s', s'.mutex[i]) { assert UserInv(s, s.mutex[i]); }
  }

  // ---- arm ----------------------------------------------------------------------

  lemma ArmCtxs(s: State, c: nat)
    requires CtxsInv(s) && c in s.callers && s.callers[c].pc.Arming?
    requires (s.dlByConn ==> s.connClosed) && (s.lastLive < |s.sets| ==> Expired(s.dl, s.now))
    ensures CtxsInv(ArmStep(s, c))
  {
    var s' := ArmStep(s, c);
    assert CtxInv(s, s.nextReg);
    forall r ensures CtxInv(s', r) { assert CtxInv(s, r); }
    forall r, k | r in s'.armed ensures SeenBy(s', r, k) {
      if r in s.armed { assert SeenBy(s, r, k); }
    }
    forall k ensures SetInv(s', k) { assert SetInv(s, k); }
  }

  lemma ArmCallers(s: State, c: nat)
    requires CallersInv(s) && c in s.callers && s.callers[c].pc.Arming? && CtxInv(s, s.nextReg)
    ensures CallersInv(ArmStep(s, c))
  {
    var s' := ArmStep(s, c);
    var y, y' := s.callers[c], s'.callers[c];
    assert BytesInv(s, c, y) && RegInv(s, c, y) && ResumeInv(s, c, y) && MutexInv(s, c, y);
    HitsKept(s, s', c, y, y');
    assert BytesInv(s', c, y') && RegInv(s', c, y') && MutexInv(s', c, y');
    CallersFrame(s, s', c);
  }

  lemma ArmKeeps(s: State, c: nat)
    requires Inv(s) && Enabled(s, Arm(c))
    ensures Inv(ArmStep(s, c))
  {
    var s' := ArmStep(s, c);
    ArmCtxs(s, c);
    assert CtxInv(s, s.nextReg);
    ArmCallers(s, c);
    forall j | j in s'.callers && HasOpenedHandle(s'.callers[j].pc) ensures GripKept(s, s', j) {
      assert RegInv(s, j, s.callers[j]);
      assert CtxInv(s, s.callers[j].reg);
    }
    ClosersFrame(s, s');
    forall i | 0 <= i < |s'.mutex| ensures UserInv(s', s'.mutex[i]) { assert UserInv(s, s.mutex[i]); }
  }

  // ---- release --------------------------------------------------------------------

  lemma ReleaseCtxs(s: State, c: nat)
    requires Inv(s) && ReleaseEnabled(s, c)
    ensures CtxsInv(ReleaseStep(s, c))
  {
    var s' := ReleaseStep(s, c);
    Known(s, c);
    AfterReleaseShape(s, c);
    forall r ensures CtxInv(s', r) { assert CtxInv(s, r); }
    forall r, k | r in s'.armed ensures SeenBy(s', r, k) { assert SeenBy(s, r, k); }
    forall k ensures SetInv(s', k) { assert SetInv(s, k); }
  }

  /** The `set` that interrupted this iteration has not interrupted an earlier one: its
      snapshot held a single registration of this call. */
  lemma NewHit(s: State, c: nat)
    requires Inv(s) && ReleaseEnabled(s, c) && s.callers[c].pc.err == Some(ECanceled)
    ensures s.ctxs[s.callers[c].reg].killer.Some?
    ensures s.ctxs[s.callers[c].reg].killer.value !in s.callers[c].hits
  {
    Known(s, c);
    var y := s.callers[c];
    var k := s.ctxs[y.reg].killer.value;
    assert CtxInv(s, y.reg);
    assert SetInv(s, k);
    assert k in y.hits ==> Hit(s, c, y, k);
  }

  /** What the verdict leaves as it was. */
  lemma AfterReleaseShape(s: State, c: nat)
    requires ReleaseEnabled(s, c)
    ensures var y, y' := s.callers[c], AfterRelease(s, c);
            && y' == y.(pc := y'.pc, resumes := y'.resumes, hits := y'.hits)
            && (y'.pc.Arming? || y'.pc.Returned?)
            && (y'.pc.Returned? ==> y' == y.(pc := y'.pc))
            && (y'.pc.Arming? ==> y.pc.err == Some(ECanceled) && y'.resumes == y.resumes + 1)
  {
  }

  lemma ReleaseResume(s: State, c: nat)
    requires Inv(s) && ReleaseEnabled(s, c)
    ensures ResumeInv(ReleaseStep(s, c), c, AfterRelease(s, c))
  {
    var s' := ReleaseStep(s, c);
    var y, y' := s.callers[c], AfterRelease(s, c);
    Known(s, c);
    AfterReleaseShape(s, c);
    assert CtxInv(s, y.reg);
    if y'.pc.Arming? {
      NewHit(s, c);
      var k0 := s.ctxs[y.reg].killer.value;
      assert y'.hits == y.hits + {k0};
      HitsKept(s, s', c, y, y'.(hits := y.hits, resumes := y.resumes));
      assert Hit(s', c, y', k0) by {
        assert y.reg in s'.sets[k0].snapshot && s'.ctxs[y.reg].owner == c && y.reg < Frontier(s', y');
      }
      forall k | k in y.hits ensures Hit(s', c, y', k) {
        assert Hit(s', c, y'.(hits := y.hits, resumes := y.resumes), k);
      }
    } else {
      HitsKept(s, s', c, y, y');
    }
  }

  lemma ReleaseVerdict(half: Half, y: Caller, closed: bool, e: Option<GoErr>)
    requires ShapeInv(half, y) && (half.SendHalf? ==> SendInv(y)) && y.pc.Leaving?
    requires Decide(half, |y.p|, |y.moved|, y.pc.err) == Stop(e)
    ensures var y' := y.(pc := Returned(if y.viaConn then CloseAware(closed, e) else e));
            ShapeInv(half, y') && (half.SendHalf? ==> SendInv(y'))
  {
  }

  lemma ReleaseAgain(half: Half, y: Caller, y': Caller)
    requires ShapeInv(half, y) && (half.SendHalf? ==> SendInv(y)) && y.pc.Leaving?
    requires Decide(half, |y.p|, |y.moved|, y.pc.err) == Again
    requires y' == y.(pc := Arming, resumes := y.resumes + 1, hits := y'.hits)
    ensures ShapeInv(half, y') && (half.SendHalf? ==> SendInv(y'))
  {
  }

  lemma ReleaseBytes(s: State, c: nat)
    requires ReleaseEnabled(s, c) && BytesInv(s, c, s.callers[c]) && MutexInv(s, c, s.callers[c])
    ensures var s', y' := ReleaseStep(s, c), AfterRelease(s, c);
            BytesInv(s', c, y') && RegInv(s', c, y') && MutexInv(s', c, y')
  {
    var y := s.callers[c];
    AfterReleaseShape(s, c);
    match Decide(s.half, |y.p|, |y.moved|, y.pc.err)
    case Again => ReleaseAgain(s.half, y, AfterRelease(s, c));
    case Stop(e) => ReleaseVerdict(s.half, y, s.connClosed, e);
  }

  lemma ReleaseOthers(s: State, c: nat, j: nat)
    requires Inv(s) && ReleaseEnabled(s, c) && j in s.callers && j != c
    ensures CallerKept(s, ReleaseStep(s, c), j)
  {
    Known(s, c);
    Known(s, j);
  }

  lemma ReleaseClosers(s: State, c: nat)
    requires Inv(s) && ReleaseEnabled(s, c)
    ensures ClosersInv(ReleaseStep(s, c))
  {
    AfterReleaseShape(s, c);
    ClosersFrame(s, ReleaseStep(s, c));
  }

  lemma ReleaseKeeps(s: State, c: nat)
    requires Inv(s) && ReleaseEnabled(s, c)
    ensures Inv(ReleaseStep(s, c))
  {
    var s' := ReleaseStep(s, c);
    Known(s, c);
    ReleaseCtxs(s, c);
    ReleaseResume(s, c);
    ReleaseBytes(s, c);
    forall j | j in s'.callers && j != c ensures CallerKept(s, s', j) { ReleaseOthers(s, c, j); }
    CallersFrame(s, s', c);
    ReleaseClosers(s, c);
    forall i | 0 <= i < |s'.mutex| ensures UserInv(s', s'.mutex[i]) { assert UserInv(s, s.mutex[i]); }
  }

  // ---- set, its cancels, timers -------------------------------------------------------

  /** The state after the critical section of `deadline.set`. */
  function SetLocked(s: State, d: Deadline, byConn: bool): State {
    s.(sets := AddSet(s), lastLive := LiveSets(s, d), dl := d, dlByConn := byConn)
  }

  lemma SetCtxs(s: State, d: Deadline, byConn: bool)
    requires CtxsInv(s)
    ensures CtxsInv(SetLocked(s, d, byConn))
  {
    var s' := SetLocked(s, d, byConn);
    forall r ensures CtxInv(s', r) { assert CtxInv(s, r); }
    forall r, k | r in s'.armed ensures SeenBy(s', r, k) { assert SeenBy(s, r, k) && CtxInv(s, r); }
    forall k ensures SetInv(s', k) {
      assert SetInv(s, k);
      if k == |s.sets| {
        forall r | r in s.armed ensures r in s.ctxs && s.ctxs[r].gen <= k { assert CtxInv(s, r); }
        forall r, q | r in s.armed && q in s.armed && s.ctxs[r].owner == s.ctxs[q].owner ensures r == q {
          assert CtxInv(s, r) && CtxInv(s, q);
        }
      }
    }
  }

  lemma SetCallers(s: State, d: Deadline, byConn: bool)
    requires CallersInv(s)
    ensures CallersInv(SetLocked(s, d, byConn))
  {
    var s' := SetLocked(s, d, byConn);
    forall c | c in s'.callers
      ensures var y := s'.callers[c];
              BytesInv(s', c, y) && RegInv(s', c, y) && ResumeInv(s', c, y) && MutexInv(s', c, y)
    {
      assert CallerKept(s, s', c);
      CallerFrame(s, s', c);
    }
  }

  lemma SetDeadlineKeeps(s: State, d: Deadline)
    requires Inv(s)
    ensures Inv(SetLocked(s, d, false))
  {
    var s' := SetLocked(s, d, false);
    SetCtxs(s, d, false);
    SetCallers(s, d, false);
    forall x | x in s'.closers ensures CloserInv(s', x, s'.closers[x]) { assert CloserInv(s, x, s.closers[x]); }
    forall x, z ensures OneWinner(s', x, z) { assert OneWinner(s, x, z); }
    forall c, x ensures Covered(s', c, x) { assert Covered(s, c, x); }
    forall c, x ensures Trapped(s', c, x) {
      assert Trapped(s, c, x);
      if c in s.callers { StillDoomed(s, s', s.callers[c].reg); }
    }
    forall i | 0 <= i < |s'.mutex| ensures UserInv(s', s'.mutex[i]) { assert UserInv(s, s.mutex[i]); }
  }

  /** A step that ends one context and may cross one cancel off a `set`. */
  ghost predicate Ends(s: State, s': State, r: nat) {
    && r in s.ctxs && r in s'.ctxs
    && s' == s.(ctxs := s.ctxs[r := s'.ctxs[r]], sets := s'.sets)
    && |s'.sets| == |s.sets|
    && (forall k :: 0 <= k < |s.sets| ==>
          && s'.sets[k].snapshot == s.sets[k].snapshot
          && s'.sets[k].pending <= s.sets[k].pending
          && (forall q :: q != r && q in s.sets[k].pending ==> q in s'.sets[k].pending))
    && var x, x' := s.ctxs[r], s'.ctxs[r];
       && x' == x.(err := x'.err, killer := x'.killer) && x'.err.Some?
       && (x.err.Some? ==> x' == x)
       && (x'.err == Some(DeadlineExceeded) && x.err.None? ==> x.dl.At? && x.dl.t <= s.now)
       && (x'.err == Some(Canceled) && x.err.None? ==> x'.killer.Some?)
       && (x'.killer.Some? ==> x'.killer == x.killer
                               || (x'.killer.value < |s.sets| && r in s.sets[x'.killer.value].snapshot))
  }

  lemma EndsCtxs(s: State, s': State, r: nat)
    requires CtxsInv(s) && r in s'.ctxs && Ends(s, s', r)
    ensures CtxsInv(s')
  {
    forall q ensures CtxInv(s', q) { assert CtxInv(s, q); }
    forall q, k | q in s'.armed ensures SeenBy(s', q, k) { assert SeenBy(s, q, k); }
    forall k ensures SetInv(s', k) { assert SetInv(s, k); }
  }

  lemma EndsKeeps(s: State, s': State, r: nat)
    requires Inv(s) && r in s'.ctxs && Ends(s, s', r)
    ensures Inv(s')
  {
    EndsCtxs(s, s', r);
    forall c | c in s'.callers
      ensures var y := s'.callers[c];
              BytesInv(s', c, y) && RegInv(s', c, y) && ResumeInv(s', c, y) && MutexInv(s', c, y)
    {
      assert CallerKept(s, s', c);
      CallerFrame(s, s', c);
    }
    ClosersFrame(s, s');
    forall i | 0 <= i < |s'.mutex| ensures UserInv(s', s'.mutex[i]) { assert UserInv(s, s.mutex[i]); }
  }

  lemma SetCancelKeeps(s: State, k: nat, r: nat)
    requires Inv(s) && Enabled(s, SetCancel(k, r))
    ensures Inv(Apply(s, SetCancel(k, r)))
  {
    assert SetInv(s, k);
    EndsKeeps(s, Apply(s, SetCancel(k, r)), r);
  }

  lemma ExpireKeeps(s: State, r: nat)
    requires Inv(s) && Enabled(s, Expire(r))
    ensures Inv(Apply(s, Expire(r)))
  {
    assert CtxInv(s, r);
    EndsKeeps(s, Apply(s, Expire(r)), r);
  }

  lemma TickKeeps(s: State)
    requires Inv(s)
    ensures Inv(s.(now := s.now + 1))
  {
    var s' := s.(now := s.now + 1);
    CtxFrame(s, s');
    forall c | c in s'.callers
      ensures var y := s'.callers[c];
              BytesInv(s', c, y) && RegInv(s', c, y) && ResumeInv(s', c, y) && MutexInv(s', c, y)
    {
      assert CallerKept(s, s', c);
      CallerFrame(s, s', c);
    }
    ClosersFrame(s, s');
    forall i | 0 <= i < |s'.mutex| ensures UserInv(s', s'.mutex[i]) { assert UserInv(s, s.mutex[i]); }
  }

  // ==== closing, and every step ===========================================================

  // ---- steps that change a closer and not the calls -------------------------------

  /** Calls see of a close only the mutex queue, and that only where they wait in it. */
  ghost predicate ForCallsSame(s: State, s': State) {
    && s'.half == s.half && s'.now == s.now && s'.armed == s.armed && s'.nextReg == s.nextReg
    && s'.ctxs == s.ctxs && s'.callers == s.callers && s'.mu == s.mu
    && s'.log == s.log && s'.source == s.source
    && (s.connClosed ==> s'.connClosed)
    && (forall c :: ByCaller(c) in s'.mutex <==> ByCaller(c) in s.mutex)
  }

  lemma CallsSame(s: State, s': State)
    requires CallersInv(s) && ForCallsSame(s, s') && s'.sets == s.sets
    ensures CallersInv(s')
  {
    forall c | c in s'.callers
      ensures var y := s'.callers[c];
              BytesInv(s', c, y) && RegInv(s', c, y) && ResumeInv(s', c, y) && MutexInv(s', c, y)
    {
      assert CallerKept(s, s', c);
      CallerFrame(s, s', c);
    }
  }

  /** The closer side when only closer `x` and what belongs to it changes. */
  lemma ClosersSame(s: State, s': State, x: nat)
    requires ClosersInv(s) && x in s'.closers && s'.closers == s.closers[x := s'.closers[x]]
    requires s'.callers == s.callers && s'.ctxs == s.ctxs && s'.sets == s.sets && s'.now == s.now
    requires (s.connClosed ==> s'.connClosed) && s'.open == s.open
    requires CloserInv(s', x, s'.closers[x])
    requires forall z :: z != x ==> (ByCloser(z) in s'.mutex <==> ByCloser(z) in s.mutex)
    requires (s'.terminals == s.terminals && s'.freed == s.freed) || (x in s.closers && s.closers[x].won)
    requires var y' := s'.closers[x];
             if x in s.closers then
               y'.setId == s.closers[x].setId && y'.order == s.closers[x].order
               && (y'.won ==> s.closers[x].won && y'.clean == s.closers[x].clean && y'.sealed == s.closers[x].sealed)
             else !y'.won && y'.setId.None?
    ensures ClosersInv(s')
  {
    forall z | z in s'.closers ensures CloserInv(s', z, s'.closers[z]) {
      if z != x { assert CloserInv(s, z, s.closers[z]) && OneWinner(s, x, z); }
    }
    forall a, b ensures OneWinner(s', a, b) { assert OneWinner(s, a, b); }
    forall c, z ensures Covered(s', c, z) { assert Covered(s, c, z); }
    forall c, z ensures Trapped(s', c, z) {
      assert Trapped(s, c, z);
      if c in s.callers { StillDoomed(s, s', s.callers[c].reg); }
    }
  }

  lemma NewCloseKeeps(s: State, x: nat, conn: bool, order: Order)
    requires Inv(s) && x !in s.closers
    ensures Inv(PutX(s, x, Closer(conn, order, Begin, false, None, false, false)))
  {
    var s' := PutX(s, x, Closer(conn, order, Begin, false, None, false, false));
    assert forall i :: 0 <= i < |s.mutex| ==> UserInv(s, s.mutex[i]) && s.mutex[i] != ByCloser(x);
    CtxFrame(s, s');
    CallsSame(s, s');
    ClosersSame(s, s', x);
    forall i | 0 <= i < |s'.mutex| ensures UserInv(s', s'.mutex[i]) { assert UserInv(s, s.mutex[i]); }
  }

  /** Steps of a close that neither take the handle nor touch the deadline. */
  lemma AdvanceKeeps(s: State, x: nat)
    requires Inv(s) && CloseEnabled(s, x)
    requires !s.closers[x].pc.WantTake? && !s.closers[x].pc.WantExpire?
    ensures Inv(Advance(s, x))
  {
    var s' := Advance(s, x);
    assert CloserInv(s, x, s.closers[x]);
    AdvanceInv(s, x);
    CtxFrame(s, s');
    CallsSame(s, s');
    ClosersSame(s, s', x);
    forall i | 0 <= i < |s'.mutex| ensures UserInv(s', s'.mutex[i]) {
      if i < |s.mutex| { assert UserInv(s, s.mutex[i]); }
    }
  }

  lemma AdvanceInv(s: State, x: nat)
    requires CloseEnabled(s, x) && CloserInv(s, x, s.closers[x])
    requires !s.closers[x].pc.WantTake? && !s.closers[x].pc.WantExpire?
    ensures CloserInv(Advance(s, x), x, Advance(s, x).closers[x])
  {
  }

  // ---- take and expire ----------------------------------------------------------------

  lemma TakeInv(s: State, x: nat)
    requires CloseEnabled(s, x) && CloserInv(s, x, s.closers[x]) && s.closers[x].pc.WantTake?
    requires s.open ==> s.terminals == 0 && !s.freed
    requires s.lastLive < |s.sets| ==> Expired(s.dl, s.now)
    ensures CloserInv(TakeHandle(s, x), x, TakeHandle(s, x).closers[x])
  {
  }

  /** Whoever has the handle when a clean close takes it armed before that close's `set`, or
      under the deadline it set, which had already passed. */
  lemma TakeCovers(s: State, x: nat, c: nat)
    requires Inv(s) && CloseEnabled(s, x) && s.closers[x].pc.WantTake? && s.open
    ensures Covered(TakeHandle(s, x), c, x)
  {
    var y := s.closers[x];
    assert CloserInv(s, x, y);
    if c in s.callers {
      Known(s, c);
      assert CtxInv(s, s.callers[c].reg);
    }
  }

  /** A take under a deadline that has passed: whoever has the handle armed under it, or is in
      the last `set`'s snapshot. */
  lemma TakeTraps(s: State, x: nat, c: nat)
    requires Inv(s) && CloseEnabled(s, x) && s.closers[x].pc.WantTake? && s.open
    ensures Trapped(TakeHandle(s, x), c, x)
  {
    var s' := TakeHandle(s, x);
    if c in s.callers && HoldsReg(s.callers[c].pc) && s'.closers[x].sealed {
      Known(s, c);
      var r := s.callers[c].reg;
      assert CtxInv(s, r);
      if s.ctxs[r].gen < |s.sets| {
        assert SeenBy(s, r, |s.sets| - 1);
        if s.ctxs[r].err.None? { assert r in s'.sets[|s.sets| - 1].pending; }
      }
    }
  }

  lemma TakeGrips(s: State, x: nat, c: nat, z: nat)
    requires Inv(s) && CloseEnabled(s, x) && s.closers[x].pc.WantTake? && s.open
    ensures Covered(TakeHandle(s, x), c, z) && Trapped(TakeHandle(s, x), c, z)
  {
    assert Covered(s, c, z) && Trapped(s, c, z);
    if z == x {
      TakeCovers(s, x, c);
      TakeTraps(s, x, c);
    } else if c in s.callers {
      StillDoomed(s, TakeHandle(s, x), s.callers[c].reg);
    }
  }

  lemma TakeKeeps(s: State, x: nat)
    requires Inv(s) && CloseEnabled(s, x) && s.closers[x].pc.WantTake?
    ensures Inv(TakeHandle(s, x))
  {
    var s' := TakeHandle(s, x);
    assert CloserInv(s, x, s.closers[x]);
    TakeInv(s, x);
    CtxFrame(s, s');
    CallsSame(s, s');
    if s.open {
      forall z | z in s'.closers ensures CloserInv(s', z, s'.closers[z]) {
        if z != x { assert CloserInv(s, z, s.closers[z]); }
      }
      forall a, b ensures OneWinner(s', a, b) {
        if a in s.closers { assert CloserInv(s, a, s.closers[a]); }
        if b in s.closers { assert CloserInv(s, b, s.closers[b]); }
      }
      forall c, z ensures Covered(s', c, z) && Trapped(s', c, z) { TakeGrips(s, x, c, z); }
    } else {
      ClosersSame(s, s', x);
    }
    forall i | 0 <= i < |s'.mutex| ensures UserInv(s', s'.mutex[i]) { assert UserInv(s, s.mutex[i]); }
  }

  lemma ExpireClosers(s: State, x: nat)
    requires Inv(s) && CloseEnabled(s, x) && s.closers[x].pc.WantExpire?
    ensures ClosersInv(ExpireDeadline(s, x))
  {
    var s' := ExpireDeadline(s, x);
    forall z | z in s'.closers ensures CloserInv(s', z, s'.closers[z]) { assert CloserInv(s, z, s.closers[z]); }
    forall a, b ensures OneWinner(s', a, b) { assert OneWinner(s, a, b); }
    forall c, z ensures Covered(s', c, z) {
      assert Covered(s, c, z);
      if z == x && c in s.callers {
        Known(s, c);
        assert CtxInv(s, s.callers[c].reg);
      }
    }
    forall c, z ensures Trapped(s', c, z) {
      assert Trapped(s, c, z);
      if c in s.callers {
        Known(s, c);
        StillDoomed(s, s', s.callers[c].reg);
        if z == x && HoldsReg(s.callers[c].pc) { assert s.callers[c].reg in s'.sets[|s.sets|].pending; }
      }
    }
  }

  lemma ExpireDeadlineKeeps(s: State, x: nat)
    requires Inv(s) && CloseEnabled(s, x) && s.closers[x].pc.WantExpire?
    ensures Inv(ExpireDeadline(s, x))
  {
    var s' := ExpireDeadline(s, x);
    var s1 := SetLocked(s, At(PAST), s.closers[x].conn);
    assert CloserInv(s, x, s.closers[x]);
    SetCtxs(s, At(PAST), s.closers[x].conn);
    SetCallers(s, At(PAST), s.closers[x].conn);
    CtxFrame(s1, s');
    CallsSame(s1, s');
    ExpireClosers(s, x);
    forall i | 0 <= i < |s'.mutex| ensures UserInv(s', s'.mutex[i]) { assert UserInv(s, s.mutex[i]); }
  }

  // ---- the terminal operation lands, or is given up ---------------------------------------

  lemma CloseLandKeeps(s: State, x: nat)
    requires Inv(s) && Enabled(s, CloseLand(x))
    ensures Inv(Apply(s, CloseLand(x)))
  {
    var s' := PutX(s, x, s.closers[x].(pc := WantFree)).(mutex := s.mutex[1..], terminals := s.terminals + 1);
    assert CloserInv(s, x, s.closers[x]);
    TailProps(s.mutex);
    CtxFrame(s, s');
    CallsSame(s, s');
    assert CloserInv(s', x, s'.closers[x]);
    ClosersSame(s, s', x);
    forall i | 0 <= i < |s'.mutex| ensures UserInv(s', s'.mutex[i]) { assert UserInv(s, s.mutex[i + 1]); }
  }

  lemma TailProps(m: seq<User>)
    requires m != [] && NoDup(m)
    ensures NoDup(m[1..]) && forall u :: u in m[1..] <==> u in m && u != m[0]
  {
    assert m == [m[0]] + m[1..];
  }

  lemma CloseAbandonKeeps(s: State, x: nat)
    requires Inv(s) && Enabled(s, CloseAbandon(x))
    ensures Inv(Apply(s, CloseAbandon(x)))
  {
    var s' := PutX(s, x, s.closers[x].(pc := WantFree)).(mutex := Without(s.mutex, ByCloser(x)));
    assert CloserInv(s, x, s.closers[x]);
    WithoutProps(s.mutex, ByCloser(x));
    CtxFrame(s, s');
    CallsSame(s, s');
    assert CloserInv(s', x, s'.closers[x]);
    ClosersSame(s, s', x);
    forall i | 0 <= i < |s'.mutex| ensures UserInv(s', s'.mutex[i]) {
      assert s'.mutex[i] in s.mutex;
      var k :| 0 <= k < |s.mutex| && s.mutex[k] == s'.mutex[i];
      assert UserInv(s, s.mutex[k]);
    }
  }

  // ---- every step, every run ----------------------------------------------------------------

  lemma InitInv(half: Half, source: seq<byte>)
    ensures Inv(Init(half, source))
  {
    var s := Init(half, source);
    forall r ensures CtxInv(s, r) {}
    forall k ensures SetInv(s, k) {}
    forall x, z ensures OneWinner(s, x, z) {}
    forall c, x ensures Covered(s, c, x) {}
    forall c, x ensures Trapped(s, c, x) {}
  }

  // Steps by who takes them, so that facts about all steps can be proved a few at a time.
  predicate IsLanding(step: Step) {
    step.LandMove? || step.LandEof? || step.LandFail? || step.LandStop? || step.LandGone?
  }

  predicate IsClosing(step: Step) {
    step.NewClose? || step.CloseStep? || step.CloseLand? || step.CloseAbandon?
  }

  predicate IsTiming(step: Step) {
    step.SetDeadline? || step.SetCancel? || step.Expire? || step.Tick?
  }

  predicate IsCalling(step: Step) {
    !IsLanding(step) && !IsClosing(step) && !IsTiming(step)
  }

  lemma LandingKeeps(s: State, step: Step)
    requires Inv(s) && Enabled(s, step) && IsLanding(step)
    ensures Inv(Apply(s, step))
  {
    match step
    case LandMove(c, chunk) => LandMoveKeeps(s, c, chunk);
    case LandEof(c) => DryLandKeeps(s, c, Ok(Eof));
    case LandFail(c, k) => DryLandKeeps(s, c, Err(k));
    case LandStop(c) => DryLandKeeps(s, c, Err(Cancelled));
    case LandGone(c) => DryLandKeeps(s, c, Err(ErrKind.Closed));
  }

  lemma CallingKeeps(s: State, step: Step)
    requires Inv(s) && Enabled(s, step) && IsCalling(step)
    ensures Inv(Apply(s, step))
  {
    match step
    case NewCall(c, p, v) => NewCallKeeps(s, c, p, v);
    case Arm(c) => ArmKeeps(s, c);
    case GetHandle(c) => GetHandleKeeps(s, c);
    case Lock(c) => LockKeeps(s, c);
    case Issue(c) => IssueKeeps(s, c);
    case Enqueue(c) => EnqueueKeeps(s, c);
    case Return(c, ret) => ReturnKeeps(s, c, ret);
    case Release(c) => ReleaseKeeps(s, c);
  }

  lemma ClosingKeeps(s: State, step: Step)
    requires Inv(s) && Enabled(s, step) && IsClosing(step)
    ensures Inv(Apply(s, step))
  {
    match step
    case NewClose(x, conn, order) => NewCloseKeeps(s, x, conn, order);
    case CloseStep(x) =>
      if s.closers[x].pc.WantTake? { TakeKeeps(s, x); }
      else if s.closers[x].pc.WantExpire? { ExpireDeadlineKeeps(s, x); }
      else { AdvanceKeeps(s, x); }
    case CloseLand(x) => CloseLandKeeps(s, x);
    case CloseAbandon(x) => CloseAbandonKeeps(s, x);
  }

  lemma StepKeeps(s: State, step: Step)
    requires Inv(s) && Enabled(s, step)
    ensures Inv(Apply(s, step))
  {
    if IsLanding(step) {
      LandingKeeps(s, step);
    } else if IsClosing(step) {
      ClosingKeeps(s, step);
    } else if IsCalling(step) {
      CallingKeeps(s, step);
    } else {
      match step
      case SetDeadline(d) => SetDeadlineKeeps(s, d);
      case SetCancel(k, r) => SetCancelKeeps(s, k, r);
      case Expire(r) => ExpireKeeps(s, r);
      case Tick => TickKeeps(s);
    }
  }

  /** The invariant holds in every state every run reaches. */
  lemma {:induction false} RunKeeps(s: State, run: seq<Step>)
    requires Inv(s) && Legal(s, run)
    ensures Inv(Exec(s, run))
    decreases |run|
  {
    if run != [] {
      StepKeeps(s, run[0]);
      RunKeeps(Apply(s, run[0]), run[1..]);
    }
  }
}
