/** The two rendezvous tables of the completion pump, and the two critical sections on them. */
module PumpTables {
  import opened Common
  import opened OpTypes

  datatype Tables = Tables(waiters: set<nat>, unclaimed: map<nat, Status>)

  /** The critical section of `deliver`: true when a waiter was found and must be sent to. */
  function Delivered(t: Tables, op: nat, st: Status): (Tables, bool) {
    if op in t.waiters
    then (t.(waiters := t.waiters - {op}), true)
    else (t.(unclaimed := t.unclaimed[op := st]), false)
  }

  /** The critical section of `register`: the status to put in the new channel, if any. */
  function Registered(t: Tables, op: nat): (Tables, Option<Status>) {
    if op in t.unclaimed
    then (t.(unclaimed := t.unclaimed - {op}), Some(t.unclaimed[op]))
    else (t.(waiters := t.waiters + {op}), None)
  }

  function Pending(t: Tables): nat {
    |t.waiters| + |t.unclaimed|
  }
}
