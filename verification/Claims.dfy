/** Claiming a result: the library's `iroh_op_result_*`, `iroh_op_free` and
    `iroh_error_take` over the sharded registry, and what the Go `Await*` functions do with
    them once they have a status. */
module Claims {
  import opened Common
  import opened OpTypes
  import opened Registry
  import opened Completions

  /** The shapes `iroh_op_result_*` accepts for each `Await*` that collects a value. */
  predicate Shaped(a: Await, v: OpValue) {
    match a
    case AUnit => false
    case AHandle => v.Handle?
    case AHandle2 => v.Handle2?
    case AU64 => v.U64? || v.Unit?
    case ABytes => v.Bytes? || v.Eof? || v.Unit?
  }

  class Library {
    const table: HandleTable
    var ops: map<nat, Op>            // what operation handles point to
    var errors: map<nat, ErrKind>    // what error handles point to

    constructor (table: HandleTable)
      requires table.Valid() && table.Flat() == map[]
      ensures Valid() && this.table == table
    {
      this.table := table;
      ops, errors := map[], map[];
    }

    ghost predicate Valid()
      reads this, table, table.shards
    {
      && table.Valid()
      && forall h :: h in table.Flat() ==>
           (table.Flat()[h].ty == TOp ==> h in ops) && (table.Flat()[h].ty == TError ==> h in errors)
    }

    /** The outcome `take(op)` hands out. */
    ghost function Taken(op: nat): Outcome
      requires Valid()
      reads this, table, table.shards, ops.Values
    {
      var slot := Lookup(table.Flat(), op, TOp);
      if slot.Err? then Err(slot.error)
      else if ops[op].result.Some? then ops[op].result.value
      else Err(Internal)
    }

    /** No other operation's slot changes. */
    twostate predicate OthersKeep(op: nat)
      reads this, ops.Values
    {
      ops == old(ops) && forall k :: k in ops && (op in ops ==> ops[k] != ops[op]) ==> ops[k].result == old(ops[k].result)
    }

    method Take(op: nat) returns (r: Outcome)
      requires Valid()
      modifies ops.Values
      ensures r == old(Taken(op)) && OthersKeep(op)
      ensures Lookup(table.Flat(), op, TOp).Ok? ==> ops[op].result == None
    {
      var slot := table.Get(op, TOp);
      if slot.Err? { return Err(slot.error); }
      r := ops[op].TakeResult();
    }

    /** `ffi::store_err`. */
    method StoreErr(k: ErrKind) returns (errh: nat)
      requires Valid()
      modifies this`errors, table`next, table.shards
      ensures Valid() && errh == old(table.next) > 0 && table.next == errh + 1
      ensures errh !in old(table.Flat())
      ensures table.Flat() == old(table.Flat())[errh := Slot(TError, errh)]
      ensures errors == old(errors)[errh := k]
    {
      errh := table.Reserve();
      errors := errors[errh := k];
      table.Publish(errh, Slot(TError, errh));
    }

    /** `iroh_op_result_handle`, `_handle2`, `_u64` and `_bytes`. */
    method OpResult(a: Await, op: nat) returns (ok: bool, v: OpValue, errh: nat)
      requires Valid() && !a.AUnit?
      modifies ops.Values, this`errors, table`next, table.shards
      ensures Valid() && table.next >= old(table.next) && OthersKeep(op)
      ensures var c := Claim(a, old(Taken(op)));
              if c.Ok? then ok && v == c.value && table.Flat() == old(table.Flat()) && errors == old(errors)
              else
                && !ok && errh == old(table.next) && errh !in old(table.Flat()) && errh > 0
                && table.Flat() == old(table.Flat())[errh := Slot(TError, errh)]
                && errors == old(errors)[errh := c.error]
    {
      var r := Take(op);
      var c := Claim(a, r);
      if c.Ok? { return true, c.value, 0; }
      errh := StoreErr(c.error);
      return false, Unit, errh;
    }

    /** `iroh_op_result_err`: no error object when there is a value after all. */
    method OpResultErr(op: nat) returns (errh: nat)
      requires Valid()
      modifies ops.Values, this`errors, table`next, table.shards
      ensures Valid() && table.next >= old(table.next) && OthersKeep(op)
      ensures var r := old(Taken(op));
              if r.Ok? then errh == 0 && table.Flat() == old(table.Flat())
              else
                && errh == old(table.next) && errh !in old(table.Flat()) && errh > 0
                && table.Flat() == old(table.Flat())[errh := Slot(TError, errh)]
                && errors == old(errors)[errh := r.error]
    {
      var r := Take(op);
      errh := 0;
      if r.Err? { errh := StoreErr(r.error); }
    }

    /** `takeError` and `iroh_error_take`: reads the kind and consumes the handle. */
    method TakeError(h: nat) returns (kind: ErrKind)
      requires Valid()
      modifies table.shards
      ensures Valid() && table.Flat() == old(table.Flat()) - {h}
      ensures h in old(table.Flat()) && old(table.Flat())[h].ty == TError ==> h in errors && kind == errors[h]
      ensures h !in old(table.Flat()) || old(table.Flat())[h].ty != TError ==> kind == Internal
    {
      if h == 0 {
        assert table.Flat() - {h} == table.Flat();
        return Internal;
      }
      var slot := table.Get(h, TError);
      kind := if slot.Ok? then errors[h] else Internal;
      var _ := table.Remove(h);
    }

    method OpFree(op: nat)
      requires Valid()
      modifies table.shards
      ensures Valid() && table.Flat() == old(table.Flat()) - {op}
    {
      var _ := table.Remove(op);
    }

    /** `finish` on a failed status: collects and consumes the error, and frees the operation. */
    method FinishFailed(op: nat) returns (kind: ErrKind)
      requires Valid() && op < table.next
      modifies ops.Values, this`errors, table`next, table.shards
      ensures Valid() && table.Flat() == old(table.Flat()) - {op} && OthersKeep(op)
      ensures kind == if old(Taken(op)).Err? then old(Taken(op)).error else Internal
    {
      ghost var flat := table.Flat();
      var errh := OpResultErr(op);
      kind := TakeError(errh);
      OpFree(op);
      Consumed(flat, errh, op);
    }

    /** The rest of every `Await*` that collects a value. */
    method FinishValue(a: Await, op: nat) returns (ret: Ret)
      requires Valid() && op < table.next && !a.AUnit?
      modifies ops.Values, this`errors, table`next, table.shards
      ensures Valid() && table.Flat() == old(table.Flat()) - {op} && OthersKeep(op)
      ensures ret == match Claim(a, old(Taken(op))) case Ok(v) => Value(v) case Err(k) => Failed(k)
    {
      ghost var flat := table.Flat();
      var ok, v, errh := OpResult(a, op);
      OpFree(op);
      if !ok {
        var k := TakeError(errh);
        Consumed(flat, errh, op);
        return Failed(k);
      }
      return Value(v);
    }

    /** The library still resolves `op` to an operation. */
    ghost predicate Live(op: nat)
      requires table.Valid()
      reads this, table, table.shards
    {
      op in table.Flat() && table.Flat()[op].ty == TOp && op in ops
    }

    /** Every `Await*` once it has a status: whatever the status and the value, the operation
        leaves the registry, no error object stays behind, and no other handle is touched.
        A status that tells the truth about a value of the right shape makes the call return
        exactly what the operation produced: its value, or the kind of its failure. The rest
        says what every other status, slot and handle is answered with. */
    method Finish(a: Await, op: nat, st: Status) returns (ret: Ret)
      requires Valid() && op < table.next
      modifies ops.Values, this`errors, table`next, table.shards
      ensures Valid() && table.Flat() == old(table.Flat()) - {op} && OthersKeep(op)
      ensures old(Live(op) && ops[op].result.Some?) ==>
        var r := old(ops[op].result.value);
        && (st == StatusOf(r) && WellTyped(a, r) ==>
              ret == match r case Ok(v) => Value(v) case Err(k) => Failed(k))
        && (st != StOk && r.Ok? ==> ret == Failed(Internal))
        && (st != StOk && r.Err? ==> ret == Failed(r.error))
        && (st == StOk && r.Err? && !a.AUnit? ==> ret == Failed(r.error))
        && (st == StOk && r.Ok? && r.value.Unit? && a.AU64? ==> ret == Value(U64(0)))
        && (st == StOk && r.Ok? && r.value.Unit? && a.ABytes? ==> ret == Value(Bytes([])))
        && (st == StOk && r.Ok? && !a.AUnit? && !Shaped(a, r.value) ==> ret == Failed(Internal))
      ensures st == StOk && a.AUnit? ==> ret == Value(Unit)
      ensures st != StOk || !a.AUnit? ==>
        && (old(Live(op) && ops[op].result.None?) ==> ret == Failed(Internal))
        && (op != 0 && op !in old(table.Flat()) ==> ret == Failed(ErrKind.Closed))
        && (op in old(table.Flat()) && old(table.Flat())[op].ty != TOp ==> ret == Failed(InvalidInput))
        && (op == 0 ==> ret == Failed(InvalidInput))
    {
      if st != StOk {
        var k := FinishFailed(op);
        return Failed(k);
      }
      if a.AUnit? {
        OpFree(op);
        return Value(Unit);
      }
      ret := FinishValue(a, op);
    }
  }

  /** An error object published and consumed leaves no trace, before or after the free. */
  lemma Consumed(flat: map<nat, Slot>, errh: nat, op: nat)
    requires errh !in flat
    ensures flat[errh := Slot(TError, errh)] - {errh} - {op} == flat - {op}
    ensures flat[errh := Slot(TError, errh)] - {op} - {errh} == flat - {op}
    ensures flat - {errh} - {op} == flat - {op}
  {
  }
}
