/** The sharded handle table, and its refinement of one flat map with ids never reused. */
module Registry {
  import opened Common
  import opened OpTypes

  // The run-time type of a registry slot, which `get` checks before it hands the object out.
  datatype TypeTag = TOp | TError | TOptions | TEndpoint | TConnection | TSend | TRecv

  datatype Slot = Slot(ty: TypeTag, obj: nat)

  const SHARDS: nat := 16
  const NULL_HANDLE: nat := 0

  /** `get` on the flat table. */
  function Lookup(live: map<nat, Slot>, h: nat, ty: TypeTag): Result<Slot, ErrKind> {
    if h == NULL_HANDLE then Err(InvalidInput)
    else if h !in live then Err(ErrKind.Closed)
    else if live[h].ty != ty then Err(InvalidInput)
    else Ok(live[h])
  }

  /** The part of a table whose keys fall into the first `n` shards. */
  ghost function Below(live: map<nat, Slot>, n: nat): map<nat, Slot> {
    map h | h in live && h % SHARDS < n :: live[h]
  }

  ghost function InShard(live: map<nat, Slot>, k: nat): map<nat, Slot> {
    map h | h in live && h % SHARDS == k :: live[h]
  }

  lemma BelowGrows(live: map<nat, Slot>, k: nat)
    ensures |Below(live, k + 1)| == |Below(live, k)| + |InShard(live, k)|
  {
    assert Below(live, k + 1).Keys == Below(live, k).Keys + InShard(live, k).Keys;
    assert Below(live, k).Keys !! InShard(live, k).Keys;
    assert |Below(live, k + 1)| == |Below(live, k + 1).Keys|;
    assert |Below(live, k)| == |Below(live, k).Keys|;
    assert |InShard(live, k)| == |InShard(live, k).Keys|;
  }

  /** The sixteen maps are the parts of one table their indices say. */
  ghost predicate Sharded(maps: seq<map<nat, Slot>>, live: map<nat, Slot>) {
    forall k :: 0 <= k < |maps| ==> maps[k] == InShard(live, k)
  }

  /** The sizes of the first `n` maps. */
  function SumSizes(maps: seq<map<nat, Slot>>, n: nat): nat
    requires n <= |maps|
  {
    if n == 0 then 0 else SumSizes(maps, n - 1) + |maps[n - 1]|
  }

  lemma {:induction false} SumIsBelow(maps: seq<map<nat, Slot>>, live: map<nat, Slot>, n: nat)
    requires n <= |maps| && Sharded(maps, live)
    ensures SumSizes(maps, n) == |Below(live, n)|
  {
    if n == 0 {
      assert Below(live, 0) == map[];
    } else {
      SumIsBelow(maps, live, n - 1);
      BelowGrows(live, n - 1);
    }
  }

  /** All sizes together are the size of the one table. */
  lemma SumIsSize(maps: seq<map<nat, Slot>>, live: map<nat, Slot>)
    requires |maps| == SHARDS && Sharded(maps, live)
    ensures SumSizes(maps, SHARDS) == |live|
  {
    SumIsBelow(maps, live, SHARDS);
    assert Below(live, SHARDS) == live;
  }

  class HandleTable {
    const shards: array<map<nat, Slot>>
    var next: nat

    ghost predicate Valid()
      reads this, shards
    {
      && shards.Length == SHARDS
      && 0 < next
      && forall k :: 0 <= k < SHARDS ==>
           forall h :: h in shards[k] ==> 0 < h < next && h % SHARDS == k
    }

    /** The one map the sixteen shards stand for. */
    ghost function Flat(): map<nat, Slot>
      reads this, shards
      requires Valid()
    {
      map h | 0 < h < next && h in shards[h % SHARDS] :: shards[h % SHARDS][h]
    }

    constructor ()
      ensures Valid() && fresh(shards) && Flat() == map[] && next == 1
    {
      shards := new map<nat, Slot>[SHARDS](_ => map[]);
      next := 1;
    }

    method Reserve() returns (h: nat)
      requires Valid()
      modifies this`next
      ensures Valid() && h == old(next) && next == h + 1
      ensures h !in old(Flat()) && Flat() == old(Flat())
    {
      h := next;
      next := next + 1;
    }

    method Publish(h: nat, v: Slot)
      requires Valid() && 0 < h < next
      modifies shards
      ensures Valid() && Flat() == old(Flat())[h := v]
    {
      var k := h % SHARDS;
      shards[k] := shards[k][h := v];
    }

    method Insert(v: Slot) returns (h: nat)
      requires Valid()
      modifies this`next, shards
      ensures Valid() && h == old(next) && next == h + 1
      ensures h !in old(Flat()) && Flat() == old(Flat())[h := v]
    {
      h := Reserve();
      Publish(h, v);
    }

    method Get(h: nat, ty: TypeTag) returns (r: Result<Slot, ErrKind>)
      requires Valid()
      ensures r == Lookup(Flat(), h, ty)
      ensures h == 0 || (h in Flat() && Flat()[h].ty != ty) ==> r == Err(InvalidInput)
      ensures h != 0 && h !in Flat() ==> r == Err(ErrKind.Closed)
      ensures h in Flat() && Flat()[h].ty == ty ==> r == Ok(Flat()[h])
    {
      if h == NULL_HANDLE { return Err(InvalidInput); }
      var shard := shards[h % SHARDS];
      if h !in shard { return Err(ErrKind.Closed); }
      if shard[h].ty != ty { return Err(InvalidInput); }
      return Ok(shard[h]);
    }

    method Remove(h: nat) returns (live: bool)
      requires Valid()
      modifies shards
      ensures Valid() && Flat() == old(Flat()) - {h} && live == (h in old(Flat()))
    {
      if h == NULL_HANDLE {
        assert Flat() == Flat() - {h};
        return false;
      }
      var k := h % SHARDS;
      live := h in shards[k];
      shards[k] := shards[k] - {h};
    }

    method Len() returns (n: nat)
      requires Valid()
      ensures n == |Flat()|
    {
      n := 0;
      for k := 0 to shards.Length
        invariant n == SumSizes(shards[..], k)
      {
        n := n + |shards[k]|;
      }
      FlatIsSharded();
      SumIsSize(shards[..], Flat());
    }

    lemma FlatIsSharded()
      requires Valid()
      ensures Sharded(shards[..], Flat())
    {
      forall k | 0 <= k < SHARDS ensures shards[k] == InShard(Flat(), k) {
        assert forall h :: h in shards[k] ==> 0 < h < next && h % SHARDS == k;
      }
    }
  }

  // ---- histories of the flat table --------------------------------------------

  datatype Event = EReserve | EPublish(h: nat, v: Slot) | ERemove(h: nat)

  // `owed` are ids reserved by a thread that has not published under them yet.
  datatype Table = Table(next: nat, owed: set<nat>, live: map<nat, Slot>)

  predicate CanHappen(t: Table, e: Event) {
    e.EPublish? ==> e.h in t.owed
  }

  function Happen(t: Table, e: Event): Table {
    match e
    case EReserve => t.(next := t.next + 1, owed := t.owed + {t.next})
    case EPublish(h, v) => t.(owed := t.owed - {h}, live := t.live[h := v])
    case ERemove(h) => t.(live := t.live - {h})
  }

  predicate Possible(t: Table, es: seq<Event>)
    decreases |es|
  {
    es == [] || (CanHappen(t, es[0]) && Possible(Happen(t, es[0]), es[1..]))
  }

  function After(t: Table, es: seq<Event>): Table
    requires Possible(t, es)
    decreases |es|
  {
    if es == [] then t else After(Happen(t, es[0]), es[1..])
  }

  predicate TableInv(t: Table) {
    && (forall h :: h in t.owed ==> h < t.next && h !in t.live)
    && (forall h :: h in t.live ==> h < t.next)
  }

  /** Over any history, a published handle resolves to its own object or to nothing, and is
      answered accordingly for every type it may be asked as: as before, or as closed. Once
      freed it never resolves again. */
  lemma {:induction false} HandlesAreNeverReused(t: Table, es: seq<Event>, h: nat, ty: TypeTag)
    requires TableInv(t) && Possible(t, es) && h < t.next && h !in t.owed
    ensures var live := After(t, es).live;
            && (h in live ==> h in t.live && live[h] == t.live[h])
            && (Lookup(live, h, ty) == Lookup(t.live, h, ty) || Lookup(live, h, ty) == Err(ErrKind.Closed))
            && (h != 0 && h !in live ==> Lookup(live, h, ty) == Err(ErrKind.Closed))
            && (h !in t.live ==> h !in live)
    decreases |es|
  {
    if es != [] {
      HandlesAreNeverReused(Happen(t, es[0]), es[1..], h, ty);
    }
  }
}
