/** The trigger table of agent/triggers.c: a list of triggers, newest first, and an id counter. */
module Triggers {
  import opened EmList
  import opened Framing

  const TR_TYPE_UE_REP := 0
  const TR_TYPE_UE_MEAS := 1
  const TR_TYPE_MAC_REP := 2

  /** The largest C `int`; `ctx->next++` has no meaning beyond it. */
  const INT_MAX := 0x7FFF_FFFF

  /** What a trigger is known by besides its id. */
  datatype Key = Key(mod: int, kind: int, instance: int)

  /** `emtri`, without its list member. */
  datatype Trigger = Trigger(id: int, key: Key, msg: Bytes)

  // ------------------------------------------------ the table as a sequence

  /** The first position in `s` whose element satisfies `p`, or the length when there is none. */
  function First<X>(s: seq<X>, p: X -> bool): (k: nat)
    ensures k <= |s|
    ensures k < |s| ==> p(s[k])
    ensures forall i | 0 <= i < k :: !p(s[i])
  {
    if s == [] then 0 else if p(s[0]) then 0 else 1 + First(s[1..], p)
  }

  function RemoveFirst<X>(s: seq<X>, p: X -> bool): seq<X> {
    var k := First(s, p);
    if k < |s| then Without(s, k) else s
  }

  lemma FirstIs<X>(s: seq<X>, p: X -> bool, k: nat)
    requires k <= |s|
    requires k < |s| ==> p(s[k])
    requires forall i | 0 <= i < k :: !p(s[i])
    ensures First(s, p) == k
  {
  }

  function HasId(id: int): Trigger -> bool {
    (t: Trigger) => t.id == id
  }

  function HasKey(k: Key): Trigger -> bool {
    (t: Trigger) => t.key == k
  }

  /** Every id has been given out already. */
  ghost predicate Below(table: seq<Trigger>, next: int) {
    forall i | 0 <= i < |table| :: table[i].id < next
  }

  // ------------------------------------------------------- the table in place

  class TrigCtx {
    const ts: ListHead<Trigger>
    var next: int
    ghost var nodes: seq<ListHead<Trigger>>
    /** The triggers, newest first. */
    ghost var Table: seq<Trigger>

    ghost var Repr: set<object>

    /** The table is well-formed in its links, and holds the triggers of `Table`, whose ids are given out. */
    ghost predicate Kept(a: Aspect)
      reads this, ts, nodes
    {
      match a
      case Links => Ring(ts, nodes)
      case Entries => Holds(nodes, Table) && Below(Table, next)
    }

    ghost predicate Valid()
      reads this, Repr
    {
      this in Repr && ts in Repr && (forall x | x in nodes :: x in Repr) && |nodes| == |Table| && forall a :: Kept(a)
    }

    lemma IdsBelow()
      requires Valid()
      ensures Below(Table, next)
    {
      assert Kept(Entries);
    }

    /** As `em_start` prepares it. */
    constructor ()
      ensures Valid() && fresh(Repr) && Table == [] && next == 1
    {
      ts := new ListHead<Trigger>.Head();
      next := 1;
      nodes, Table, Repr := [], [], {this, ts};
    }

    /** `trig_add`. */
    method Add(trig: ListHead<Trigger>) returns (id: int)
      requires Valid() && trig !in Repr
      requires next < INT_MAX
      modifies Repr, trig
      ensures Valid() && Repr == old(Repr) + {trig}
      ensures id == old(next) && next == old(next) + 1
      ensures trig.entry == old(trig.entry).(id := id)
      ensures Table == [trig.entry] + old(Table)
    {
      assert Kept(Links) && Kept(Entries);
      trig.entry := trig.entry.(id := next);
      next := next + 1;
      ListAdd(trig, ts, nodes);
      nodes, Table, Repr := [trig] + nodes, [trig.entry] + Table, Repr + {trig};
      id := trig.entry.id;
    }

    /** A new trigger with key `key`, added. */
    method Install(key: Key, msg: Bytes) returns (g: Trigger)
      requires Valid() && next < INT_MAX
      modifies Repr
      ensures Valid() && fresh(Repr - old(Repr))
      ensures g == Trigger(old(next), key, msg) && Table == [g] + old(Table) && next == old(next) + 1
    {
      var trig := new ListHead<Trigger>.Entry(Trigger(0, key, msg));
      var _ := Add(trig);
      g := trig.entry;
    }

    /** The loop the two deletions and the two searches share: the first node whose trigger satisfies
        `p`, or the list head. */
    method Seek(p: Trigger -> bool) returns (t: ListHead<Trigger>)
      requires Valid()
      ensures t == From(ts, nodes, First(Table, p))
    {
      assert Kept(Links) && Kept(Entries);
      t := ts.next;
      ghost var i := 0;
      while t != ts
        invariant 0 <= i <= |nodes| && t == From(ts, nodes, i)
        invariant forall j | 0 <= j < i :: !p(Table[j])
        decreases |nodes| - i
      {
        if p(t.entry) {
          FirstIs(Table, p, i);
          return;
        }
        t := t.next;
        i := i + 1;
      }
      FirstIs(Table, p, i);
    }

    /** `trig_find_by_id` and `trig_find_by_inst`. */
    method Find(p: Trigger -> bool) returns (t: ListHead?<Trigger>)
      requires Valid()
      ensures var k := First(Table, p);
        if k < |Table| then t != null && t in nodes && t.entry == Table[k] else t == null
    {
      assert Kept(Links) && Kept(Entries);
      t := Seek(p);
      if t == ts {
        t := null;
      }
    }

    /** `trig_del_by_id` and `trig_del_by_inst`: unlink and free the first trigger that satisfies `p`. */
    method DelFirst(p: Trigger -> bool) returns (r: int)
      requires Valid()
      modifies Repr
      ensures Valid() && Repr == old(Repr) && next == old(next)
      ensures Table == RemoveFirst(old(Table), p)
      ensures r == if First(old(Table), p) < |old(Table)| then 0 else -1
    {
      assert Kept(Links) && Kept(Entries);
      var t := Seek(p);
      if t == ts {
        return -1;
      }
      Unlink(t, First(Table, p));
      return 0;
    }

    method Unlink(t: ListHead<Trigger>, ghost k: nat)
      requires Valid() && k < |nodes| && t == nodes[k]
      modifies Repr
      ensures Valid() && Repr == old(Repr) && next == old(next) && Table == Without(old(Table), k)
    {
      assert Kept(Links) && Kept(Entries);
      DeleteShape(nodes, k);
      DeleteShapeOf(Table, k);
      ListDel(t, ts, nodes, k);
      nodes, Table := Without(nodes, k), Without(Table, k);
    }

    /** `trig_flush`. The counter stays, so no id is given out twice. */
    method Flush()
      requires Valid()
      modifies Repr
      ensures Valid() && Repr == old(Repr) && next == old(next) && Table == []
    {
      assert Kept(Links) && Kept(Entries);
      var _ := ListFreeAll(ts, nodes, Table);
      nodes, Table := [], [];
    }
  }

  lemma DeleteShapeOf<X>(s: seq<X>, k: nat)
    requires k < |s|
    ensures var r := Without(s, k);
      && |r| == |s| - 1
      && (forall i | 0 <= i < k :: r[i] == s[i])
      && (forall i | k <= i < |r| :: r[i] == s[i + 1])
  {
  }
}
