/** The completion pump's tables, mutated under their lock. */
module PumpObjects {
  import opened Common
  import opened OpTypes
  import opened PumpTables

  /** A Go channel of capacity one. */
  class Chan {
    var buf: seq<Status>

    constructor ()
      ensures buf == []
    {
      buf := [];
    }
  }

  class Pump {
    var waiters: map<nat, Chan>
    var unclaimed: map<nat, Status>

    /** Parked callers have empty channels of their own, so a send finds room. */
    ghost predicate Valid()
      reads this, waiters.Values
    {
      && (forall op :: op in waiters ==> waiters[op].buf == [])
      && (forall a, b :: a in waiters && b in waiters && a != b ==> waiters[a] != waiters[b])
    }

    function State(): Tables
      reads this
    {
      Tables(waiters.Keys, unclaimed)
    }

    constructor ()
      ensures Valid() && State() == Tables({}, map[])
    {
      waiters := map[];
      unclaimed := map[];
    }

    method Deliver(op: nat, st: Status)
      requires Valid()
      modifies this, waiters.Values
      ensures Valid()
      ensures State() == Delivered(old(State()), op, st).0
      ensures op in old(waiters) ==> old(waiters)[op].buf == [st]
      ensures forall k :: k in old(waiters) && k != op ==> old(waiters)[k].buf == []
      ensures forall k :: k in waiters ==> k in old(waiters) && waiters[k] == old(waiters)[k]
    {
      if op in waiters {
        var ch := waiters[op];
        waiters := waiters - {op};
        ch.buf := ch.buf + [st];
      } else {
        unclaimed := unclaimed[op := st];
      }
    }

    method Register(op: nat) returns (ch: Chan)
      requires Valid()
      modifies this
      ensures Valid() && fresh(ch)
      ensures State() == Registered(old(State()), op).0
      ensures ch.buf == (match Registered(old(State()), op).1 case Some(st) => [st] case None => [])
      ensures Registered(old(State()), op).1.None? ==> waiters == old(waiters)[op := ch]
      ensures Registered(old(State()), op).1.Some? ==> waiters == old(waiters)
    {
      ch := new Chan();
      if op in unclaimed {
        ch.buf := [unclaimed[op]];
        unclaimed := unclaimed - {op};
      } else {
        waiters := waiters[op := ch];
      }
    }

    method PendingOps() returns (n: nat)
      ensures n == Pending(State())
    {
      n := |waiters| + |unclaimed|;
      assert |waiters| == |waiters.Keys|;
    }
  }

  /** The two critical sections commute: in either order the tables end where they began and
      the caller ends with the operation's status. */
  lemma OrderDoesNotMatter(t: Tables, op: nat, st: Status)
    requires op !in t.waiters && op !in t.unclaimed
    ensures var early := Delivered(t, op, st);
            var late := Registered(early.0, op);
            !early.1 && late.0 == t && late.1 == Some(st)
    ensures var first := Registered(t, op);
            var then' := Delivered(first.0, op, st);
            first.1 == None && then'.0 == t && then'.1
  {
    assert t.unclaimed[op := st] - {op} == t.unclaimed;
    assert (t.waiters + {op}) - {op} == t.waiters;
  }
}
