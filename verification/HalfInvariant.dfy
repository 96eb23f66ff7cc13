/** The inductive invariant of a stream half. */
module HalfInvariant {
  import opened Common
  import opened OpTypes
  import opened StreamHalf

  // ---- bytes ------------------------------------------------------------------

  /** Bytes that have moved for this call but are not reported to it yet. */
  function Inflight(y: Caller): seq<byte> {
    if y.op.Landed? then y.op.chunk else []
  }

  predicate ErrIsFromContext(e: Option<GoErr>) {
    e == Some(ECanceled) || e == Some(EDeadlineExceeded)
  }

  predicate PlainErr(e: Option<GoErr>) {
    e != Some(EOsDeadline) && e != Some(ENetClosed)
  }

  /** The fields of a call fit the place it is in. */
  predicate ShapeInv(half: Half, y: Caller) {
    && (y.pc.InOp? <==> !y.op.NoOp?)
    && y.issued <= |y.moved| + y.resumes + Ind(y.pc.InOp? || y.pc.Leaving? || y.pc.Returned?)
    && (y.op.Landed? ==>
          && (y.op.out.Err? ==> y.op.chunk == [])
          && (half.SendHalf? && y.op.out.Ok? ==> y.op.out.value == U64(|y.op.chunk|))
          && (half.RecvHalf? && y.op.out.Ok? ==>
                y.op.out.value == Bytes(y.op.chunk) || (y.op.out.value.Eof? && y.op.chunk == [])))
    && (match y.pc
        case Leaving(e) => PlainErr(e) && (ErrIsFromContext(e) && half.RecvHalf? ==> y.moved == [])
        case Returned(e) => !ErrIsFromContext(e) && (half.RecvHalf? && e == Some(EOsDeadline) ==> y.moved == [])
        case _ => half.RecvHalf? ==> y.moved == [])
  }

  /** A Write has moved a prefix of its argument, and all of it if it ends without error. */
  predicate SendInv(y: Caller) {
    && y.moved + Inflight(y) <= y.p
    && (y.pc == Leaving(None) || y.pc == Returned(None) ==> y.moved == y.p)
    && (y.pc.InOp? || y.pc == Leaving(Some(ECanceled)) ==> |y.moved| < |y.p|)
  }

  predicate BytesInv(s: State, c: nat, y: Caller) {
    && Of(s.log, c) == y.moved + Inflight(y)
    && ShapeInv(s.half, y)
    && (s.half.SendHalf? ==> SendInv(y))
    && (s.half.RecvHalf? ==> |y.moved + Inflight(y)| <= |y.p|)
  }

  // ---- contexts and registrations -----------------------------------------------

  predicate RegInv(s: State, c: nat, y: Caller) {
    && (HoldsReg(y.pc) ==> y.reg in s.armed && y.reg in s.ctxs && s.ctxs[y.reg].owner == c)
    && (y.pc.Leaving? && y.pc.err == Some(ECanceled) ==>
          y.reg in s.ctxs && s.ctxs[y.reg].err == Some(Canceled) && s.ctxs[y.reg].killer.Some?)
    && (y.pc.Leaving? && y.pc.err == Some(EDeadlineExceeded) ==>
          y.reg in s.ctxs && s.ctxs[y.reg].err == Some(DeadlineExceeded))
  }

  /** All registrations of `c` so far are below this, except a current one, which equals it. */
  function Frontier(s: State, y: Caller): nat {
    if HoldsReg(y.pc) then y.reg else s.nextReg
  }

  /** `set` number `k` copied an earlier registration of call `c`. */
  ghost predicate Hit(s: State, c: nat, y: Caller, k: nat) {
    && k < |s.sets|
    && exists r :: r in s.sets[k].snapshot && r in s.ctxs && s.ctxs[r].owner == c && r < Frontier(s, y)
  }

  ghost predicate ResumeInv(s: State, c: nat, y: Caller) {
    && |y.hits| == y.resumes
    && forall k :: k in y.hits ==> Hit(s, c, y, k)
  }

  /** Every `set` since a registration was made copied it, and still owes it a cancel unless
      its context is done. */
  predicate SeenBy(s: State, r: nat, k: nat) {
    r in s.ctxs && k < |s.sets| && s.ctxs[r].gen <= k ==>
      r in s.sets[k].snapshot && (r in s.sets[k].pending || s.ctxs[r].err.Some?)
  }

  predicate CtxInv(s: State, r: nat) {
    && (r in s.armed ==>
          && r in s.ctxs
          && s.ctxs[r].owner in s.callers
          && HoldsReg(s.callers[s.ctxs[r].owner].pc) && s.callers[s.ctxs[r].owner].reg == r
          && (s.ctxs[r].err == Some(Canceled) ==> s.ctxs[r].killer.Some?)
          && (s.ctxs[r].gen == |s.sets| ==> s.ctxs[r].dl == s.dl))
    && (r in s.ctxs ==>
          && r < s.nextReg
          && s.ctxs[r].gen <= |s.sets|
          && (s.ctxs[r].gen > s.lastLive ==> s.ctxs[r].err.Some?)
          && (s.ctxs[r].byConn ==> s.connClosed)
          && (s.ctxs[r].err == Some(DeadlineExceeded) ==> s.ctxs[r].dl.At? && s.ctxs[r].dl.t <= s.now)
          && (s.ctxs[r].killer.Some? ==>
                s.ctxs[r].killer.value < |s.sets| && r in s.sets[s.ctxs[r].killer.value].snapshot))
  }

  ghost predicate SetInv(s: State, k: nat) {
    k < |s.sets| ==>
      && s.sets[k].pending <= s.sets[k].snapshot
      && (forall r :: r in s.sets[k].snapshot ==> r in s.ctxs && s.ctxs[r].gen <= k)
      && (forall r, q | r in s.sets[k].snapshot && q in s.sets[k].snapshot && r in s.ctxs && q in s.ctxs ::
            s.ctxs[r].owner == s.ctxs[q].owner ==> r == q)
  }

  // ---- mutexes --------------------------------------------------------------------

  predicate NoDup(m: seq<User>) {
    forall i, j :: 0 <= i < j < |m| ==> m[i] != m[j]
  }

  predicate MutexInv(s: State, c: nat, y: Caller) {
    && (y.pc.Locked? || y.pc.InOp? <==> s.mu == Some(c))
    && (y.op.Queued? <==> ByCaller(c) in s.mutex)
  }

  predicate UserInv(s: State, u: User) {
    match u
    case ByCaller(c) => c in s.callers
    case ByCloser(x) => x in s.closers
  }

  // ---- closers ----------------------------------------------------------------------

  /** A close has its cancels behind it. */
  predicate SetDone(s: State, y: Closer) {
    y.setId.Some? && y.setId.value < |s.sets| && s.sets[y.setId.value].pending == {}
  }

  predicate CloserInv(s: State, x: nat, y: Closer) {
    && (y.won ==> !s.open)
    && (y.setId.Some? ==> y.setId.value < |s.sets|)
    && (y.pc.CloseQueued? <==> ByCloser(x) in s.mutex)
    && (y.conn && !y.pc.Begin? ==> s.connClosed)
    && (y.won && !y.pc.WantFree? && !y.pc.Over? ==> s.terminals == 0)
    && (y.won ==> (s.freed <==> y.pc.Over?))
    && (y.clean ==> y.setId.Some? && y.sealed)
    && (y.sealed ==> y.won) && (y.won && y.order.TakeThenExpire? && y.setId.Some? ==> y.sealed)
    && match y.pc
       case Begin => !y.won && y.setId.None?
       case WantTake => !y.won && (y.order.ExpireThenTake? ==> SetDone(s, y)) && (y.order.TakeThenExpire? ==> y.setId.None?)
       case WantExpire => (y.order.TakeThenExpire? <==> y.won) && !y.order.TakeOnly? && y.setId.None?
       case Cancelling => (y.order.TakeThenExpire? <==> y.won) && !y.order.TakeOnly? && y.setId.Some?
       case Over => y.won ==> (y.order.TakeOnly? || SetDone(s, y))
       case _ => y.won && (y.order.TakeOnly? || SetDone(s, y))
  }

  predicate OneWinner(s: State, x: nat, z: nat) {
    x in s.closers && z in s.closers && s.closers[x].won && s.closers[z].won ==> x == z
  }

  /** A call that got the handle armed before the winning close expired the deadline, or
      its context is already done. */
  predicate Covered(s: State, c: nat, x: nat) {
    c in s.callers && x in s.closers && HasOpenedHandle(s.callers[c].pc)
    && s.closers[x].won && s.closers[x].setId.Some?
    && (s.closers[x].order.TakeThenExpire? || s.closers[x].clean)
    && s.callers[c].reg in s.ctxs
    ==> s.ctxs[s.callers[c].reg].gen <= s.closers[x].setId.value || s.ctxs[s.callers[c].reg].err.Some?
  }

  /** The context has ended, or it is about to: a `set` still owes it a cancel, or its timer
      is due. */
  ghost predicate Doomed(s: State, r: nat) {
    && r in s.ctxs
    && (s.ctxs[r].err.Some? || Expired(s.ctxs[r].dl, s.now)
        || exists k :: 0 <= k < |s.sets| && r in s.sets[k].pending)
  }

  /** A call that has the handle of a sealed close will be interrupted, if it is not yet. */
  ghost predicate Trapped(s: State, c: nat, x: nat) {
    c in s.callers && x in s.closers && HasOpenedHandle(s.callers[c].pc)
    && s.closers[x].won && s.closers[x].sealed
    ==> Doomed(s, s.callers[c].reg)
  }

  // ---- everything -----------------------------------------------------------------------

  ghost predicate CallersInv(s: State) {
    forall c {:trigger BytesInv(s, c, s.callers[c])} {:trigger RegInv(s, c, s.callers[c])}
             {:trigger ResumeInv(s, c, s.callers[c])} {:trigger MutexInv(s, c, s.callers[c])} ::
      c in s.callers ==>
        var y := s.callers[c];
        BytesInv(s, c, y) && RegInv(s, c, y) && ResumeInv(s, c, y) && MutexInv(s, c, y)
  }

  ghost predicate CtxsInv(s: State) {
    && (forall r {:trigger CtxInv(s, r)} :: CtxInv(s, r))
    && (forall r, k {:trigger SeenBy(s, r, k)} :: r in s.armed ==> SeenBy(s, r, k))
    && (forall k {:trigger SetInv(s, k)} :: SetInv(s, k))
  }

  ghost predicate ClosersInv(s: State) {
    && (forall x {:trigger CloserInv(s, x, s.closers[x])} :: x in s.closers ==> CloserInv(s, x, s.closers[x]))
    && (forall x, z {:trigger OneWinner(s, x, z)} :: OneWinner(s, x, z))
    && (forall c, x {:trigger Covered(s, c, x)} :: Covered(s, c, x))
    && (forall c, x {:trigger Trapped(s, c, x)} :: Trapped(s, c, x))
  }

  ghost predicate SharedInv(s: State) {
    && s.now > PAST
    && (s.dlByConn ==> s.connClosed)
    && s.lastLive <= |s.sets| && (s.lastLive < |s.sets| ==> Expired(s.dl, s.now))
    && s.terminals <= 1 && (s.open ==> s.terminals == 0 && !s.freed)
    && NoDup(s.mutex)
    && (forall i :: 0 <= i < |s.mutex| ==> UserInv(s, s.mutex[i]))
    && (s.mu.Some? ==> s.mu.value in s.callers)
    && (s.half.RecvHalf? ==> Flatten(s.log) <= s.source)
    && (forall i :: 0 <= i < |s.log| ==> s.log[i].call in s.callers)
  }

  ghost predicate Inv(s: State) {
    SharedInv(s) && CallersInv(s) && CtxsInv(s) && ClosersInv(s)
  }
}
