/** The asynchronous operation protocol as a step relation.

    Each step is one critical section (or one await point) of the spawner, the task, its
    supervisor, a canceller, the pump or the awaiting caller. Any number of operations run
    at once and steps interleave freely. */
module OpProtocol {
  import opened Common
  import opened OpTypes
  import opened PumpTables

  // What a registry entry is. `maker` names the operation whose future inserted it, and
  // `place` counts what that future had inserted before: of a stream's two halves the send
  // half has place 0 and the receive half place 1.
  datatype Obj = OpObj | ErrObj(kind: ErrKind, op: nat) | ResObj(maker: nat, place: nat)

  datatype SpawnPc =
    | Reserved | Published
    | TaskSpawned | AbortStored | Rechecked    // ops::spawn
    | ReadyStored | ReadyPushed                // ops::spawn_ready
    | Returned

  datatype Task =
    | NotStarted
    | Running
    | Producing(made: seq<nat>)   // past its last await point, inserting handles
    | Finished(out: Outcome)
    | Stopped                     // aborted at an await point
    | Panicked

  datatype SupPc = NoSup | Joining | Storing | Pushing | SupGone

  datatype CallPc =
    | NoCall | Started | Waiting
    | CancelFetched | CancelFlagged | Draining
    | Claiming(st: Status)
    | ErrTaken(errh: nat) | ErrRead(kind: ErrKind)
    | ResultTaken(v: OpValue)
    | RefusedTaken(errh: nat) | RefusedFreed(errh: nat)
    | Abandoning
    | Done(ret: Ret)

  datatype OpRec = OpRec(
    await: Await,
    spawner: SpawnPc,
    task: Task,
    sup: SupPc,
    caller: CallPc,
    cancelRequested: bool,      // Op.cancel_requested
    abortStored: bool,          // Op.abort is Some
    aborted: bool,              // AbortHandle::abort has been called
    result: Option<Outcome>,    // Op.result
    posted: Option<Outcome>,    // what `post` was called with
    claimed: bool,              // take_result emptied the slot
    dropped: bool,              // the last Arc is gone and Drop has run
    xFetched: nat,              // outside iroh_op_cancel calls holding the Arc
    xFlagged: nat,              // ... that have also set cancel_requested
    chan: Option<Status>)       // the caller's channel, capacity one

  datatype PumpPc = Idle | Popped(op: nat, st: Status) | Sending(op: nat, st: Status)

  datatype State = State(
    next: nat,
    objs: map<nat, Obj>,
    ops: map<nat, OpRec>,
    queue: seq<(nat, Status)>,
    pump: PumpPc,
    tables: Tables,
    go: set<nat>,        // live handles owned by Go
    everGo: set<nat>,    // every handle Go was ever given
    born: map<nat, Obj>) // history: what each handle a future inserted was published as

  datatype Step =
    | Reserve(await: Await)
    | Spawn(op: nat)
    | SpawnReady(op: nat, kind: ErrKind)
    | TaskFinish(op: nat, out: Outcome)
    | TaskProduce(op: nat)
    | TaskStop(op: nat)
    | TaskPanic(op: nat)
    | Supervise(op: nat)
    | OutsideFetch(op: nat)
    | OutsideFlag(op: nat)
    | OutsideAbort(op: nat)
    | Call(op: nat)
    | CtxDone(op: nat)
    | Pump
    | Drop(op: nat)
    | GoFree(h: nat)

  // ---- helpers --------------------------------------------------------------

  const INIT: State := State(1, map[], map[], [], Idle, Tables({}, map[]), {}, {}, map[])

  function Put(s: State, i: nat, o: OpRec): State {
    s.(ops := s.ops[i := o])
  }

  /** Whether the library still resolves handle `i` to an operation. */
  predicate OpLive(s: State, i: nat) {
    i in s.objs && s.objs[i].OpObj?
  }

  predicate Terminal(t: Task) {
    t.Finished? || t.Stopped? || t.Panicked?
  }

  /** What the supervisor makes of the join handle. */
  function JoinOutcome(t: Task): Outcome
    requires Terminal(t)
  {
    match t
    case Finished(out) => out
    case Stopped => Err(Cancelled)
    case Panicked => Err(Internal)
  }

  /** `take(op)`: the outcome, or the error the library invents when there is none. */
  function TakeOutcome(s: State, i: nat, o: OpRec): Outcome {
    if i !in s.objs then Err(Closed)
    else if !s.objs[i].OpObj? then Err(InvalidInput)
    else if o.result.Some? then o.result.value
    else Err(Internal)
  }

  function AfterTake(s: State, i: nat, o: OpRec): OpRec {
    if OpLive(s, i) then o.(result := None, claimed := true) else o
  }

  /** `ffi::store_err`: publishes the error under a fresh handle. */
  function StoreErr(s: State, k: ErrKind, i: nat): State {
    s.(objs := s.objs[s.next := ErrObj(k, i)], next := s.next + 1)
  }

  /** The kind `takeError` reports: a zero handle or one that is no error reads as internal. */
  function TakeError(s: State, h: nat): ErrKind {
    if h != 0 && h in s.objs && s.objs[h].ErrObj? then s.objs[h].kind else Internal
  }

  function Remove(s: State, hs: set<nat>): State {
    s.(objs := s.objs - hs)
  }

  /** No Arc to the operation is left anywhere. */
  predicate NoRefs(s: State, i: nat, o: OpRec) {
    && i !in s.objs
    && o.spawner.Returned?
    && (o.sup.NoSup? || o.sup.SupGone?)
    && o.xFetched == 0 && o.xFlagged == 0
    && !o.caller.CancelFetched? && !o.caller.CancelFlagged?
  }

  // ---- the steps ------------------------------------------------------------

  function NewOp(a: Await): OpRec {
    OpRec(a, Reserved, NotStarted, NoSup, NoCall, false, false, false,
          None, None, false, false, 0, 0, None)
  }

  /** One step of `ops::spawn` (and of `spawn_ready` once its outcome is stored). */
  function SpawnStep(s: State, i: nat): State
    requires i in s.ops
  {
    var o := s.ops[i];
    match o.spawner
    case Reserved =>
      Put(s.(objs := s.objs[i := OpObj]), i, o.(spawner := Published))
    case Published =>
      Put(s, i, o.(spawner := TaskSpawned, task := Running))
    case TaskSpawned =>
      Put(s, i, o.(spawner := AbortStored, abortStored := true))
    case AbortStored =>
      Put(s, i, o.(spawner := Rechecked, aborted := o.aborted || o.cancelRequested))
    case Rechecked =>
      Put(s, i, o.(spawner := Returned, sup := Joining, caller := Started))
    case ReadyStored =>
      Put(s, i, o.(spawner := ReadyPushed)).(queue := s.queue + [(i, StatusOf(o.posted.GetOr(Err(Internal))))])
    case ReadyPushed =>
      Put(s, i, o.(spawner := Returned, caller := Started))
    case Returned => s
  }

  predicate SpawnEnabled(s: State, i: nat) {
    i in s.ops && !s.ops[i].spawner.Returned?
  }

  /** `spawn_ready(Err(kind))`: the outcome is stored without any task. */
  function SpawnReadyStep(s: State, i: nat, k: ErrKind): State
    requires i in s.ops
  {
    Put(s, i, s.ops[i].(spawner := ReadyStored, result := Some(Err(k)), posted := Some(Err(k))))
  }

  /** The future passes its last await point with handles still to insert. */
  function HandlesNeeded(a: Await): nat {
    match a
    case AHandle => 1
    case AHandle2 => 2
    case _ => 0
  }

  function Produced(a: Await, made: seq<nat>): OpValue
    requires |made| == HandlesNeeded(a) > 0
  {
    if a.AHandle? then Handle(made[0]) else Handle2(made[0], made[1])
  }

  /** `registry::insert` inside the future, one handle at a time, then its return. */
  function ProduceStep(s: State, i: nat): State
    requires i in s.ops && ProduceEnabled(s.ops[i])
  {
    var o := s.ops[i];
    if o.task.Running? then Put(s, i, o.(task := Producing([])))
    else if |o.task.made| < HandlesNeeded(o.await) then
      Put(s, i, o.(task := Producing(o.task.made + [s.next])))
        .(objs := s.objs[s.next := ResObj(i, |o.task.made|)], next := s.next + 1,
          born := s.born[s.next := ResObj(i, |o.task.made|)])
    else Put(s, i, o.(task := Finished(Ok(Produced(o.await, o.task.made)))))
  }

  predicate ProduceEnabled(o: OpRec) {
    && HandlesNeeded(o.await) > 0
    && (o.task.Running? || (o.task.Producing? && |o.task.made| <= HandlesNeeded(o.await)))
  }

  /** Values a future may return straight from an await point. No future builds a
      `Cancelled` error itself; only the supervisor does. */
  predicate PlainResult(a: Await, r: Outcome) {
    match r
    case Err(k) => k != Cancelled
    case Ok(v) => HandlesNeeded(a) == 0 && Typed(a, v)
  }

  /** The supervisor: join, store the outcome, push the completion, drop its Arc. */
  function SuperviseStep(s: State, i: nat): State
    requires i in s.ops && SuperviseEnabled(s.ops[i])
  {
    var o := s.ops[i];
    match o.sup
    case Joining =>
      var r := JoinOutcome(o.task);
      Put(s, i, o.(sup := Storing, result := Some(r), posted := Some(r)))
    case Storing =>
      Put(s, i, o.(sup := Pushing))
        .(queue := s.queue + [(i, StatusOf(o.posted.GetOr(Err(Internal))))])
    case _ => Put(s, i, o.(sup := SupGone))
  }

  predicate SuperviseEnabled(o: OpRec) {
    (o.sup.Joining? && Terminal(o.task)) || o.sup.Storing? || o.sup.Pushing?
  }

  /** `Op::cancel` after the flag is set: abort the task if its handle is stored. */
  function AbortIfStored(o: OpRec): OpRec {
    o.(aborted := o.aborted || o.abortStored)
  }

  /** The goroutine is inside `await`. */
  predicate Awaiting(c: CallPc) {
    c.Started? || c.Waiting? || c.CancelFetched? || c.CancelFlagged? || c.Draining?
  }

  /** `await`: register, receive, or cancel and drain. */
  function AwaitStep(s: State, i: nat): State
    requires i in s.ops
  {
    var o := s.ops[i];
    match o.caller
    case Started =>
      var r := Registered(s.tables, i);
      Put(s, i, o.(caller := Waiting, chan := r.1)).(tables := r.0)
    case Waiting =>
      if o.chan.Some? then Put(s, i, o.(caller := Claiming(o.chan.value), chan := None)) else s
    case CancelFetched =>
      Put(s, i, o.(caller := CancelFlagged, cancelRequested := true))
    case CancelFlagged =>
      Put(s, i, AbortIfStored(o).(caller := Draining))
    case Draining =>
      if o.chan.None? then s
      else Put(s, i, o.(caller := if o.chan.value == StOk then Claiming(StOk) else Abandoning, chan := None))
    case _ => s
  }

  /** The handle the caller consumes or frees next. */
  function Releases(c: CallPc, i: nat): set<nat> {
    match c
    case ErrTaken(h) => {h}
    case RefusedFreed(h) => {h}
    case _ => {i}
  }

  function AfterRelease(s: State, c: CallPc): CallPc {
    match c
    case ErrTaken(h) => ErrRead(TakeError(s, h))
    case ErrRead(k) => Done(Failed(k))
    case ResultTaken(v) => Done(Value(v))
    case RefusedTaken(h) => RefusedFreed(h)
    case RefusedFreed(h) => Done(Failed(TakeError(s, h)))
    case Abandoning => Done(CtxErr)
    case _ => c
  }

  /** After the result is taken: consume the error object, free the operation, return. */
  function ReleaseStep(s: State, i: nat): State
    requires i in s.ops
  {
    var o := s.ops[i];
    Put(Remove(s, Releases(o.caller, i)), i, o.(caller := AfterRelease(s, o.caller)))
  }

  /** The awaiting goroutine's next step when its context is not consulted. */
  function CallStep(s: State, i: nat): State
    requires i in s.ops
  {
    var c := s.ops[i].caller;
    if Awaiting(c) then AwaitStep(s, i)
    else if c.Claiming? then ClaimStep(s, i, c.st)
    else ReleaseStep(s, i)
  }

  /** `finish` and the `iroh_op_result_*` call of the `Await*` in use. */
  function ClaimStep(s: State, i: nat, st: Status): State
    requires i in s.ops
  {
    var o := s.ops[i];
    var r := TakeOutcome(s, i, o);
    var o' := AfterTake(s, i, o);
    if st != StOk then
      if r.Err? then Put(StoreErr(s, r.error, i), i, o'.(caller := ErrTaken(s.next)))
      else Put(s, i, o'.(caller := ErrTaken(0)))
    else if o.await.AUnit? then
      Put(Remove(s, {i}), i, o.(caller := Done(Value(Unit))))
    else
      HandOver(s, i, o', Claim(o.await, r))
  }

  /** `iroh_op_result_*`: the value crosses to Go, or its refusal becomes an error object. */
  function HandOver(s: State, i: nat, o: OpRec, c: Outcome): State {
    if c.Err? then Put(StoreErr(s, c.error, i), i, o.(caller := RefusedTaken(s.next)))
    else Put(s, i, o.(caller := ResultTaken(c.value)))
           .(go := s.go + Handles(c.value), everGo := s.everGo + Handles(c.value))
  }

  predicate CallEnabled(o: OpRec) {
    match o.caller
    case NoCall => false
    case Waiting => o.chan.Some?
    case Draining => o.chan.Some?
    case Done(_) => false
    case _ => true
  }

  /** The pump thread: pop, deliver under the lock, send outside it. */
  function PumpStep(s: State): State
    requires PumpEnabled(s)
  {
    match s.pump
    case Idle => s.(queue := s.queue[1..], pump := Popped(s.queue[0].0, s.queue[0].1))
    case Popped(i, st) =>
      var (t, found) := Delivered(s.tables, i, st);
      s.(tables := t, pump := if found then Sending(i, st) else Idle)
    case Sending(i, st) =>
      Put(s, i, s.ops[i].(chan := Some(st))).(pump := Idle)
  }

  /** A send on a full channel would block, so it is not an enabled step. */
  predicate PumpEnabled(s: State) {
    match s.pump
    case Idle => s.queue != []
    case Popped(_, _) => true
    case Sending(i, _) => i in s.ops && s.ops[i].chan.None?
  }

  /** `Op::drop`: releases the handles of a result nobody claimed. */
  function DropStep(s: State, i: nat): State
    requires i in s.ops
  {
    var o := s.ops[i];
    var hs := if o.result.Some? then OutcomeHandles(o.result.value) else {};
    Put(Remove(s, hs), i, o.(dropped := true, result := None))
  }

  // ---- the relation ---------------------------------------------------------

  predicate Enabled(s: State, step: Step) {
    match step
    case Reserve(_) => true
    case Spawn(i) => SpawnEnabled(s, i)
    case SpawnReady(i, k) => i in s.ops && s.ops[i].spawner.Published? && k != Cancelled
    case TaskFinish(i, r) => i in s.ops && s.ops[i].task.Running? && PlainResult(s.ops[i].await, r)
    case TaskProduce(i) => i in s.ops && ProduceEnabled(s.ops[i])
    case TaskStop(i) => i in s.ops && s.ops[i].task.Running? && s.ops[i].aborted
    case TaskPanic(i) => i in s.ops && s.ops[i].task.Running?
    case Supervise(i) => i in s.ops && SuperviseEnabled(s.ops[i])
    case OutsideFetch(i) => i in s.ops && OpLive(s, i)
    case OutsideFlag(i) => i in s.ops && s.ops[i].xFetched > 0
    case OutsideAbort(i) => i in s.ops && s.ops[i].xFlagged > 0
    case Call(i) => i in s.ops && CallEnabled(s.ops[i])
    case CtxDone(i) => i in s.ops && s.ops[i].caller.Waiting?
    case Pump => PumpEnabled(s)
    case Drop(i) => i in s.ops && !s.ops[i].dropped && NoRefs(s, i, s.ops[i])
    case GoFree(h) => h in s.everGo
  }

  function Apply(s: State, step: Step): State
    requires Enabled(s, step)
  {
    match step
    case Reserve(a) => Put(s, s.next, NewOp(a)).(next := s.next + 1)
    case Spawn(i) => SpawnStep(s, i)
    case SpawnReady(i, k) => SpawnReadyStep(s, i, k)
    case TaskFinish(i, r) => Put(s, i, s.ops[i].(task := Finished(r)))
    case TaskProduce(i) => ProduceStep(s, i)
    case TaskStop(i) => Put(s, i, s.ops[i].(task := Stopped))
    case TaskPanic(i) => Put(s, i, s.ops[i].(task := Panicked))
    case Supervise(i) => SuperviseStep(s, i)
    case OutsideFetch(i) => Put(s, i, s.ops[i].(xFetched := s.ops[i].xFetched + 1))
    case OutsideFlag(i) =>
      var o := s.ops[i];
      Put(s, i, o.(xFetched := o.xFetched - 1, xFlagged := o.xFlagged + 1, cancelRequested := true))
    case OutsideAbort(i) =>
      Put(s, i, AbortIfStored(s.ops[i]).(xFlagged := s.ops[i].xFlagged - 1))
    case Call(i) => CallStep(s, i)
    case CtxDone(i) =>
      Put(s, i, s.ops[i].(caller := if OpLive(s, i) then CancelFetched else Draining))
    case Pump => PumpStep(s)
    case Drop(i) => DropStep(s, i)
    case GoFree(h) => Remove(s, {h}).(go := s.go - {h})
  }

  /** A run is a sequence of steps, each enabled where it is taken. */
  predicate Legal(s: State, run: seq<Step>)
    decreases |run|
  {
    run == [] || (Enabled(s, run[0]) && Legal(Apply(s, run[0]), run[1..]))
  }

  function Exec(s: State, run: seq<Step>): State
    requires Legal(s, run)
    decreases |run|
  {
    if run == [] then s else Exec(Apply(s, run[0]), run[1..])
  }
}
