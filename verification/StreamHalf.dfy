/** One half of a stream under concurrency: any number of Read or Write calls, deadline
    changes and closes, above operations that behave as atomic calls.

    `SendHalf` is SendStream, `RecvHalf` is RecvStream. A step is one critical section of a
    Go mutex, one atomic operation on the handle, or one visible event of an operation. */
module StreamHalf {
  import opened Common
  import opened OpTypes

  datatype Half = SendHalf | RecvHalf

  datatype Deadline = Never | At(t: nat)

  const PAST: nat := 1

  datatype CtxErr = Canceled | DeadlineExceeded

  datatype GoErr = ECanceled | EDeadlineExceeded | EOsDeadline | EEof | ENetClosed | EKind(k: ErrKind)

  // A context made by `arm`: whose it is, the deadline and the number of `set` calls it was
  // derived under, how it ended, and which `set` cancelled it.
  datatype Ctx = Ctx(owner: nat, dl: Deadline, byConn: bool, gen: nat, err: Option<CtxErr>, killer: Option<nat>)

  // One execution of `deadline.set`: the registrations it copied under the lock, and those
  // it has still to cancel outside it.
  datatype SetRec = SetRec(snapshot: set<nat>, pending: set<nat>)

  datatype OpState = NoOp | Issued | Queued | Landed(out: Outcome, chunk: seq<byte>)

  datatype CallerPc =
    | Arming | Armed | HasHandle | Locked | InOp
    | Leaving(err: Option<GoErr>)
    | Returned(ret: Option<GoErr>)

  datatype Caller = Caller(
    p: seq<byte>,          // the bytes to write, or the buffer to fill
    viaConn: bool,         // made through StreamConn
    pc: CallerPc,
    reg: nat,
    op: OpState,
    moved: seq<byte>,      // bytes reported to this call so far
    resumes: nat,
    hits: set<nat>,        // the `set` calls that made it resume
    issued: nat)           // operations issued so far

  datatype Order = TakeOnly | TakeThenExpire | ExpireThenTake

  datatype ClosePc = Begin | WantTake | WantExpire | Cancelling | WantIssue | CloseIssued | CloseQueued | WantFree | Over

  datatype Closer = Closer(
    conn: bool,              // StreamConn.Close or Reset: closes the channel first
    order: Order,
    pc: ClosePc,
    won: bool,               // its take returned the handle
    setId: Option<nat>,      // its own deadline.set
    clean: bool,             // no set to a live deadline ran between its set and its take
    sealed: bool)            // the deadline in force when it took the handle, or since, had passed

  datatype User = ByCaller(c: nat) | ByCloser(x: nat)

  datatype Chunk = Chunk(call: nat, data: seq<byte>)

  datatype State = State(
    half: Half,
    now: nat,
    dl: Deadline, dlByConn: bool,
    sets: seq<SetRec>,
    lastLive: nat,             // history: the sets up to the last one to a deadline not yet passed
    armed: set<nat>, nextReg: nat, ctxs: map<nat, Ctx>,
    callers: map<nat, Caller>,
    closers: map<nat, Closer>,
    open: bool, freed: bool, terminals: nat, connClosed: bool,
    mu: Option<nat>,           // writeMu / readMu
    mutex: seq<User>,          // FIFO of the library stream's async mutex, head holds it
    log: seq<Chunk>,           // bytes the library stream accepted or gave up, in order
    source: seq<byte>)         // what the peer sent, for the receive half

  datatype Step =
    | NewCall(c: nat, p: seq<byte>, viaConn: bool)
    | Arm(c: nat) | GetHandle(c: nat) | Lock(c: nat) | Issue(c: nat)
    | Enqueue(c: nat)
    | LandMove(c: nat, chunk: seq<byte>) | LandEof(c: nat) | LandFail(c: nat, kind: ErrKind)
    | LandStop(c: nat) | LandGone(c: nat)
    | Return(c: nat, ret: Ret)
    | Release(c: nat)
    | SetDeadline(dl: Deadline) | SetCancel(k: nat, reg: nat)
    | Expire(reg: nat) | Tick
    | NewClose(x: nat, conn: bool, order: Order)
    | CloseStep(x: nat) | CloseLand(x: nat) | CloseAbandon(x: nat)

  function Init(half: Half, source: seq<byte>): State {
    State(half, PAST + 1, Never, false, [], 0, {}, 0, map[], map[], map[], true, false, 0, false,
          None, [], [], source)
  }

  // ---- pure pieces of the Go code ---------------------------------------------

  /** `deadlineErr`. */
  function DeadlineErr(e: Option<GoErr>): Option<GoErr> {
    if e == Some(EDeadlineExceeded) then Some(EOsDeadline) else e
  }

  datatype Decision = Again | Stop(ret: Option<GoErr>)

  /** What Read or Write does with what its context-taking twin returned: `asked` bytes
      wanted in all, `done` moved so far. */
  function Decide(half: Half, asked: nat, done: nat, err: Option<GoErr>): Decision {
    match half
    case SendHalf =>
      if err.None? then Stop(None)
      else if err == Some(ECanceled) && done < asked then Again
      else Stop(DeadlineErr(err))
    case RecvHalf =>
      if done > 0 || err.None? then Stop(err)
      else if err == Some(ECanceled) then Again
      else Stop(DeadlineErr(err))
  }

  /** `closeAware`. */
  function CloseAware(closed: bool, e: Option<GoErr>): Option<GoErr> {
    if e.None? || e == Some(EEof) then e
    else if closed && (e == Some(EOsDeadline) || e == Some(EKind(ErrKind.Closed))) then Some(ENetClosed)
    else e
  }

  function GoErrOf(e: CtxErr): GoErr {
    if e.Canceled? then ECanceled else EDeadlineExceeded
  }

  /** What cancelling, or the passing of a deadline, makes of a context's error: the first
      cause stays. */
  function EndErr(e: Option<CtxErr>, cause: CtxErr): Option<CtxErr> {
    if e.None? then Some(cause) else e
  }

  function EndCtx(x: Ctx, cause: CtxErr): Ctx {
    x.(err := EndErr(x.err, cause))
  }

  function Expired(dl: Deadline, now: nat): bool {
    dl.At? && dl.t <= now
  }

  // ---- logs ---------------------------------------------------------------------

  function Flatten(log: seq<Chunk>): seq<byte> {
    if log == [] then [] else Flatten(log[..|log| - 1]) + log[|log| - 1].data
  }

  /** The bytes call `c` moved. */
  function Of(log: seq<Chunk>, c: nat): seq<byte> {
    if log == [] then []
    else Of(log[..|log| - 1], c) + (if log[|log| - 1].call == c then log[|log| - 1].data else [])
  }

  // ---- helpers --------------------------------------------------------------------

  function PutC(s: State, c: nat, x: Caller): State { s.(callers := s.callers[c := x]) }
  function PutX(s: State, x: nat, y: Closer): State { s.(closers := s.closers[x := y]) }

  /** Removes one user from the mutex queue, wherever it waits. */
  function Without(m: seq<User>, u: User): seq<User> {
    if m == [] then [] else if m[0] == u then m[1..] else [m[0]] + Without(m[1..], u)
  }

  /** The calling goroutine holds a context registered under `reg`. */
  predicate HoldsReg(p: CallerPc) {
    p.Armed? || p.HasHandle? || p.Locked? || p.InOp? || p.Leaving?
  }

  predicate HasOpenedHandle(p: CallerPc) {
    p.HasHandle? || p.Locked? || p.InOp?
  }

  function Remaining(half: Half, y: Caller): nat {
    if half.SendHalf? && |y.moved| <= |y.p| then |y.p| - |y.moved| else if half.RecvHalf? then |y.p| else 0
  }

  /** The call leaves ReadContext or WriteContext with this error. */
  function Left(y: Caller, err: Option<GoErr>): Caller {
    y.(pc := Leaving(err), op := NoOp)
  }

  /** A step inside the context-taking call, which drops its mutex when it is left. */
  function Within(s: State, c: nat, y: Caller): State {
    s.(callers := s.callers[c := y], mu := if y.pc.Leaving? then None else s.mu)
  }

  /** The operation of call `c` ends with this outcome and leaves the stream's mutex. */
  function Land(s: State, c: nat, out: Outcome, chunk: seq<byte>, log: seq<Chunk>): State
    requires c in s.callers
  {
    s.(callers := s.callers[c := s.callers[c].(op := Landed(out, chunk))],
       mutex := Without(s.mutex, ByCaller(c)), log := log)
  }

  function AddSet(s: State): seq<SetRec> {
    s.sets + [SetRec(s.armed, s.armed)]
  }

  /** `lastLive` after a `set` to this deadline. */
  function LiveSets(s: State, dl: Deadline): nat {
    if Expired(dl, s.now) then s.lastLive else |s.sets| + 1
  }

  // ---- caller steps ---------------------------------------------------------------

  function ArmStep(s: State, c: nat): State
    requires c in s.callers
  {
    var r := s.nextReg;
    var err := if Expired(s.dl, s.now) then Some(DeadlineExceeded) else None;
    PutC(s, c, s.callers[c].(pc := Armed, reg := r))
      .(armed := s.armed + {r}, nextReg := r + 1,
        ctxs := s.ctxs[r := Ctx(c, s.dl, s.dlByConn, |s.sets|, err, None)])
  }

  /** Where `h.get()`, and the empty buffer's early return, send the call. */
  function AfterGet(half: Half, open: bool, empty: bool): CallerPc {
    if !open then Leaving(Some(EKind(ErrKind.Closed)))
    else if half.RecvHalf? && empty then Leaving(None)
    else HasHandle
  }

  function GetHandleStep(s: State, c: nat): State
    requires c in s.callers
  {
    var y := s.callers[c];
    PutC(s, c, y.(pc := AfterGet(s.half, s.open, |y.p| == 0)))
  }

  function IssueStep(s: State, c: nat): State
    requires c in s.callers
  {
    var y := s.callers[c];
    Within(s, c, if Remaining(s.half, y) > 0 then y.(pc := InOp, op := Issued, issued := y.issued + 1) else Left(y, None))
  }

  function AfterReturn(s: State, c: nat, ret: Ret): Caller
    requires ReturnEnabled(s, c, ret)
  {
    var y := s.callers[c];
    var y' := y.(moved := y.moved + y.op.chunk);
    match ret
    case Failed(k) => Left(y, Some(EKind(k)))
    case CtxErr => Left(y, Some(GoErrOf(s.ctxs[y.reg].err.value)))
    case Value(v) =>
      if s.half.RecvHalf? then Left(y', if v.Eof? then Some(EEof) else None)
      else if y.op.chunk == [] then Left(y', Some(EKind(ErrKind.Stream)))
      else y'.(pc := Locked, op := NoOp)
  }

  function ReturnStep(s: State, c: nat, ret: Ret): State
    requires ReturnEnabled(s, c, ret)
  {
    Within(s, c, AfterReturn(s, c, ret))
  }

  /** The operation below is an atomic call: its return fits what landed, and a context
      error is reported only when the context is done. */
  predicate ReturnEnabled(s: State, c: nat, ret: Ret) {
    && c in s.callers && s.callers[c].pc.InOp? && s.callers[c].op.Landed?
    && RetFits(s.callers[c].op.out, ret)
    && ret != Failed(Cancelled)
    && (ret.CtxErr? ==> s.callers[c].reg in s.ctxs && s.ctxs[s.callers[c].reg].err.Some?)
  }

  /** The loop's verdict once its context is released. */
  function AfterRelease(s: State, c: nat): Caller
    requires ReleaseEnabled(s, c)
  {
    var y := s.callers[c];
    match Decide(s.half, |y.p|, |y.moved|, y.pc.err)
    case Again =>
      var k := s.ctxs[y.reg].killer;
      y.(pc := Arming, resumes := y.resumes + 1, hits := y.hits + (if k.Some? then {k.value} else {}))
    case Stop(e) =>
      y.(pc := Returned(if y.viaConn then CloseAware(s.connClosed, e) else e))
  }

  predicate ReleaseEnabled(s: State, c: nat) {
    c in s.callers && s.callers[c].pc.Leaving? && s.callers[c].reg in s.ctxs
  }

  /** The release function: unregister, cancel the context; then the loop decides. */
  function ReleaseStep(s: State, c: nat): State
    requires ReleaseEnabled(s, c)
  {
    var r := s.callers[c].reg;
    s.(armed := s.armed - {r}, ctxs := s.ctxs[r := EndCtx(s.ctxs[r], Canceled)],
       callers := s.callers[c := AfterRelease(s, c)])
  }

  // ---- close ------------------------------------------------------------------------

  /** The order each kind of close goes in, apart from the take. */
  function NextClosePc(y: Closer): ClosePc {
    match y.pc
    case Begin => if y.order.ExpireThenTake? then WantExpire else WantTake
    case WantTake => if y.order.TakeThenExpire? then WantExpire else WantIssue
    case WantExpire => Cancelling
    case Cancelling => if y.order.ExpireThenTake? then WantTake else WantIssue
    case WantIssue => CloseIssued
    case CloseIssued => CloseQueued
    case CloseQueued => CloseQueued
    case WantFree => Over
    case Over => Over
  }

  /** `handle.take`: one atomic swap, which only the first caller wins. */
  function TakeHandle(s: State, x: nat): State
    requires x in s.closers
  {
    var y := s.closers[x];
    if s.open then
      s.(closers := s.closers[x := y.(pc := NextClosePc(y), won := true,
                                      clean := y.setId.Some? && s.lastLive <= y.setId.value,
                                      sealed := Expired(s.dl, s.now))],
         open := false)
    else PutX(s, x, y.(pc := Over))
  }

  /** The critical section of the close's own `deadline.set(pastDeadline)`. */
  function ExpireDeadline(s: State, x: nat): State
    requires x in s.closers
  {
    var y := s.closers[x];
    s.(closers := s.closers[x := y.(pc := Cancelling, setId := Some(|s.sets|), sealed := y.won)],
       sets := AddSet(s), lastLive := LiveSets(s, At(PAST)), dl := At(PAST), dlByConn := y.conn)
  }

  /** Closing the connection's channel, issuing and queueing the terminal operation, and
      freeing the handle after it. */
  function Advance(s: State, x: nat): State
    requires x in s.closers
  {
    var y := s.closers[x];
    s.(closers := s.closers[x := y.(pc := NextClosePc(y))],
       connClosed := s.connClosed || (y.pc.Begin? && y.conn),
       mutex := if y.pc.CloseIssued? then s.mutex + [ByCloser(x)] else s.mutex,
       freed := s.freed || y.pc.WantFree?)
  }

  function CloseStepOf(s: State, x: nat): State
    requires CloseEnabled(s, x)
  {
    if s.closers[x].pc.WantTake? then TakeHandle(s, x)
    else if s.closers[x].pc.WantExpire? then ExpireDeadline(s, x)
    else Advance(s, x)
  }

  /** `set` returns once everything it copied is cancelled; the mutex is waited for. */
  predicate CloseEnabled(s: State, x: nat) {
    && x in s.closers
    && var y := s.closers[x];
       match y.pc
       case Cancelling => y.setId.Some? && y.setId.value < |s.sets| && s.sets[y.setId.value].pending == {}
       case CloseQueued => false
       case Over => false
       case _ => true
  }

  // ---- the relation -------------------------------------------------------------------

  predicate AtHead(s: State, u: User) {
    s.mutex != [] && s.mutex[0] == u
  }

  predicate OpIs(s: State, c: nat, o: OpState) {
    c in s.callers && s.callers[c].pc.InOp? && s.callers[c].op == o
  }

  predicate Enabled(s: State, step: Step) {
    match step
    case NewCall(c, _, _) => c !in s.callers
    case Arm(c) => c in s.callers && s.callers[c].pc.Arming?
    case GetHandle(c) => c in s.callers && s.callers[c].pc.Armed?
    case Lock(c) => c in s.callers && s.callers[c].pc.HasHandle? && s.mu.None?
    case Issue(c) => c in s.callers && s.callers[c].pc.Locked?
    case Enqueue(c) => OpIs(s, c, Issued)
    case LandMove(c, chunk) =>
      && OpIs(s, c, Queued) && AtHead(s, ByCaller(c)) && s.terminals == 0
      && |s.callers[c].moved| <= |s.callers[c].p|
      && |chunk| <= Remaining(s.half, s.callers[c])
      && (s.half.SendHalf? ==> chunk == s.callers[c].p[|s.callers[c].moved|..][..|chunk|])
      && (s.half.RecvHalf? ==> Flatten(s.log) + chunk <= s.source)
    case LandEof(c) => OpIs(s, c, Queued) && AtHead(s, ByCaller(c)) && s.terminals == 0
                      && s.half.RecvHalf? && Flatten(s.log) == s.source
    case LandFail(c, k) => OpIs(s, c, Queued) && AtHead(s, ByCaller(c)) && k != Cancelled
    case LandStop(c) =>
      && (OpIs(s, c, Issued) || OpIs(s, c, Queued))
      && s.callers[c].reg in s.ctxs && s.ctxs[s.callers[c].reg].err.Some?
    case LandGone(c) => OpIs(s, c, Issued) && s.freed
    case Return(c, ret) => ReturnEnabled(s, c, ret)
    case Release(c) => ReleaseEnabled(s, c)
    case SetDeadline(_) => true
    case SetCancel(k, r) => k < |s.sets| && r in s.sets[k].pending && r in s.ctxs
    case Expire(r) => r in s.ctxs && Expired(s.ctxs[r].dl, s.now)
    case Tick => true
    case NewClose(x, _, _) => x !in s.closers
    case CloseStep(x) => CloseEnabled(s, x)
    case CloseLand(x) => x in s.closers && s.closers[x].pc.CloseQueued? && AtHead(s, ByCloser(x))
    case CloseAbandon(x) =>
      && x in s.closers && !s.closers[x].order.TakeThenExpire?
      && (s.closers[x].pc.CloseIssued? || s.closers[x].pc.CloseQueued?)
  }

  function Apply(s: State, step: Step): State
    requires Enabled(s, step)
  {
    match step
    case NewCall(c, p, v) => PutC(s, c, Caller(p, v, Arming, 0, NoOp, [], 0, {}, 0))
    case Arm(c) => ArmStep(s, c)
    case GetHandle(c) => GetHandleStep(s, c)
    case Lock(c) => PutC(s, c, s.callers[c].(pc := Locked)).(mu := Some(c))
    case Issue(c) => IssueStep(s, c)
    case Enqueue(c) => PutC(s, c, s.callers[c].(op := Queued)).(mutex := s.mutex + [ByCaller(c)])
    case LandMove(c, chunk) =>
      Land(s, c, Ok(if s.half.SendHalf? then U64(|chunk|) else Bytes(chunk)), chunk, s.log + [Chunk(c, chunk)])
    case LandEof(c) => Land(s, c, Ok(Eof), [], s.log)
    case LandFail(c, k) => Land(s, c, Err(k), [], s.log)
    case LandStop(c) => Land(s, c, Err(Cancelled), [], s.log)
    case LandGone(c) => Land(s, c, Err(ErrKind.Closed), [], s.log)
    case Return(c, ret) => ReturnStep(s, c, ret)
    case Release(c) => ReleaseStep(s, c)
    case SetDeadline(d) => s.(sets := AddSet(s), lastLive := LiveSets(s, d), dl := d, dlByConn := false)
    case SetCancel(k, r) =>
      var x := s.ctxs[r];
      s.(sets := s.sets[k := s.sets[k].(pending := s.sets[k].pending - {r})],
         ctxs := s.ctxs[r := if x.err.None? then EndCtx(x, Canceled).(killer := Some(k)) else x])
    case Expire(r) => s.(ctxs := s.ctxs[r := EndCtx(s.ctxs[r], DeadlineExceeded)])
    case Tick => s.(now := s.now + 1)
    case NewClose(x, conn, order) => PutX(s, x, Closer(conn, order, Begin, false, None, false, false))
    case CloseStep(x) => CloseStepOf(s, x)
    case CloseLand(x) =>
      PutX(s, x, s.closers[x].(pc := WantFree))
        .(mutex := s.mutex[1..], terminals := s.terminals + 1)
    case CloseAbandon(x) =>
      PutX(s, x, s.closers[x].(pc := WantFree)).(mutex := Without(s.mutex, ByCloser(x)))
  }

  predicate Legal(s: State, run: seq<Step>)
    decreases |run|
  {
    run == [] || (Enabled(s, run[0]) && Legal(Apply(s, run[0]), run[1..]))
  }

  function Exec(s: State, run: seq<Step>): State
    requires Legal(s, run)
    decreases |run|
  {
    if run == [] then s else Exec(Apply(s, run[0]), run[1..])
  }
}
