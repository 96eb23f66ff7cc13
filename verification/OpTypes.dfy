/** The values, statuses and errors an operation carries across the library boundary. */
module OpTypes {
  import opened Common

  datatype ErrKind =
    | Internal | InvalidInput | KeyParsing | TicketParsing | Bind | Connect | Connection
    | Stream | Datagram | Alpn | Relay | Closed | Timeout | Cancelled

  datatype OpValue =
    | Unit
    | Handle(h: nat)
    | Handle2(a: nat, b: nat)
    | U64(n: nat)
    | Bytes(data: seq<byte>)
    | Eof

  type Outcome = Result<OpValue, ErrKind>

  datatype Status = StOk | StErr | StCancelled

  /** The status `Op::post` derives from an outcome. */
  function StatusOf(r: Outcome): Status {
    match r
    case Ok(_) => StOk
    case Err(k) => if k == Cancelled then StCancelled else StErr
  }

  /** The registry handles a value owns: what `release_handles` removes. */
  function Handles(v: OpValue): set<nat> {
    match v
    case Handle(h) => {h}
    case Handle2(a, b) => {a, b}
    case _ => {}
  }

  function OutcomeHandles(r: Outcome): set<nat> {
    if r.Ok? then Handles(r.value) else {}
  }

  /** Which `Await*` function a Go wrapper uses; each fixes the value it expects. */
  datatype Await = AUnit | AHandle | AHandle2 | AU64 | ABytes

  /** The values an operation started for a given `Await*` may resolve to. */
  predicate Typed(a: Await, v: OpValue) {
    match a
    case AUnit => v.Unit?
    case AHandle => v.Handle?
    case AHandle2 => v.Handle2? && v.a != v.b
    case AU64 => v.U64?
    case ABytes => v.Bytes? || v.Eof?
  }

  predicate WellTyped(a: Await, r: Outcome) {
    r.Ok? ==> Typed(a, r.value)
  }

  /** What `iroh_op_result_*` makes of the outcome it took: the value, or the kind of the
      error object it stores. A value of the wrong shape is dropped on the floor. */
  function Claim(a: Await, r: Outcome): Outcome {
    match (a, r)
    case (_, Err(k)) => Err(k)
    case (AUnit, Ok(_)) => r
    case (AHandle, Ok(Handle(_))) => r
    case (AHandle2, Ok(Handle2(_, _))) => r
    case (AU64, Ok(U64(_))) => r
    case (AU64, Ok(Unit)) => Ok(U64(0))
    case (ABytes, Ok(Bytes(_))) => r
    case (ABytes, Ok(Eof)) => r
    case (ABytes, Ok(Unit)) => Ok(Bytes([]))
    case (_, Ok(_)) => Err(Internal)
  }

  /** Handles that were inside the taken outcome but reach nobody. */
  function Leaked(a: Await, r: Outcome): set<nat> {
    OutcomeHandles(r) - OutcomeHandles(Claim(a, r))
  }

  /** What an `Await*` call returns: the value, the operation's failure, or its context's
      error. */
  datatype Ret = Value(v: OpValue) | Failed(kind: ErrKind) | CtxErr

  /** A value is reported exactly when the operation produced it; an abandoned context is
      reported only for an operation that produced nothing. */
  predicate RetFits(out: Outcome, ret: Ret) {
    match ret
    case Value(v) => out == Ok(v)
    case Failed(k) => out == Err(k)
    case CtxErr => out.Err?
  }
}
