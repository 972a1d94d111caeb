/** The triggered requests of agent/net.c: what adding and removing measurements does to the trigger
    table, and when one undoes the other. */
module Handlers {
  import opened Clock
  import opened EmList
  import opened Tasks
  import opened Triggers
  import opened Machine
  import opened Framing
  import opened View
  import opened Agent

  /** The triggers a UE measurement request adds, newest first: the ids are taken from the last to
      the first, and numbered from `next` on. */
  function News(next: int, mod: int, msg: Bytes, ids: seq<int>): (r: seq<Trigger>)
    ensures |r| == |ids|
    ensures forall i | 0 <= i < |ids| :: r[i] == Trigger(next + |ids| - 1 - i, Key(mod, TR_TYPE_UE_MEAS, ids[i]), msg)
  {
    seq(|ids|, i requires 0 <= i < |ids| => Trigger(next + |ids| - 1 - i, Key(mod, TR_TYPE_UE_MEAS, ids[i]), msg))
  }

  /** The table after removing, for each of the first `n` ids from the last to the first, the first trigger
      with its key. */
  function Cleared(table: seq<Trigger>, mod: int, ids: seq<int>, n: nat): seq<Trigger>
    requires n <= |ids|
    decreases n
  {
    if n == 0 then table
    else Cleared(RemoveFirst(table, HasKey(Key(mod, TR_TYPE_UE_MEAS, ids[n - 1]))), mod, ids, n - 1)
  }

  // ------------------------------------------------------------- round trips

  /** The instances a stretch of measurement triggers of module `mod` was made for. */
  ghost predicate MadeFor(news: seq<Trigger>, mod: int, ids: seq<int>) {
    |news| == |ids| && forall i | 0 <= i < |ids| :: news[i].key == Key(mod, TR_TYPE_UE_MEAS, ids[i])
  }

  lemma WithoutAt<X>(s: seq<X>, k: nat)
    requires k < |s|
    ensures multiset(Without(s, k)) == multiset(s) - multiset{s[k]}
  {
    assert s == s[..k] + [s[k]] + s[k + 1..];
    assert Without(s, k) == s[..k] + s[k + 1..];
  }

  /** The first trigger with one of the new keys is one of the new triggers. */
  lemma RemoveNew(news: seq<Trigger>, table: seq<Trigger>, mod: int, ids: seq<int>, x: int) returns (k: nat)
    requires MadeFor(news, mod, ids) && x in ids
    ensures k < |ids| && ids[k] == x
    ensures RemoveFirst(news + table, HasKey(Key(mod, TR_TYPE_UE_MEAS, x))) == Without(news, k) + table
    ensures MadeFor(Without(news, k), mod, Without(ids, k))
  {
    var p := HasKey(Key(mod, TR_TYPE_UE_MEAS, x));
    k := First(ids, (y: int) => y == x);
    assert forall i | 0 <= i < |ids| :: p((news + table)[i]) <==> ids[i] == x;
    FirstIs(news + table, p, k);
    DeleteShapeOf(news, k);
    DeleteShapeOf(ids, k);
    assert Without(news + table, k) == Without(news, k) + table;
  }

  ghost predicate NoneWith(table: seq<Trigger>, key: Key) {
    forall i | 0 <= i < |table| :: table[i].key != key
  }

  /** No trigger of `table` was filed for the measurements of UE `x`. */
  ghost predicate NoneFiled(table: seq<Trigger>, mod: int, x: int) {
    NoneWith(table, Key(mod, TR_TYPE_UE_MEAS, x))
  }

  /** The removals `extra` find nothing. */
  ghost predicate FindNothing(table: seq<Trigger>, mod: int, extra: multiset<int>) {
    forall x | x in extra :: NoneFiled(table, mod, x)
  }

  /** When removing `again` undoes adding `ids`: each new trigger has its removal, and the other removals find
      nothing in the table as it was. */
  ghost predicate Undoes(table: seq<Trigger>, mod: int, ids: seq<int>, again: seq<int>) {
    && multiset(ids) <= multiset(again)
    && FindNothing(table, mod, multiset(again) - multiset(ids))
  }

  lemma OneLess(again: seq<int>, n: nat)
    requires 0 < n <= |again|
    ensures multiset(again[..n]) == multiset(again[..n - 1]) + multiset{again[n - 1]}
  {
    assert again[..n] == again[..n - 1] + [again[n - 1]];
  }

  lemma SkipFirst<X>(a: seq<X>, b: seq<X>, p: X -> bool)
    requires forall i | 0 <= i < |a| :: !p(a[i])
    ensures RemoveFirst(a + b, p) == a + RemoveFirst(b, p)
  {
    var k := First(b, p);
    FirstIs(a + b, p, |a| + k);
    if k < |b| {
      DeleteShapeOf(a + b, |a| + k);
      DeleteShapeOf(b, k);
      assert Without(a + b, |a| + k) == a + Without(b, k);
    }
  }

  /** A removal that finds no new trigger takes the first old one with its key. */
  lemma ClearOld(news: seq<Trigger>, table: seq<Trigger>, mod: int, ids: seq<int>, again: seq<int>, n: nat)
    returns (rest: seq<Trigger>)
    requires 0 < n <= |again| && MadeFor(news, mod, ids) && again[n - 1] !in ids
    ensures Cleared(news + table, mod, again, n) == Cleared(news + rest, mod, again, n - 1)
    ensures if NoneFiled(table, mod, again[n - 1]) then rest == table else |rest| == |table| - 1
  {
    var p := HasKey(Key(mod, TR_TYPE_UE_MEAS, again[n - 1]));
    rest := RemoveFirst(table, p);
    forall i | 0 <= i < |news| ensures !p(news[i]) {
      assert ids[i] in ids;
    }
    SkipFirst(news, table, p);
    RemoveShort(table, Key(mod, TR_TYPE_UE_MEAS, again[n - 1]));
  }

  /** A removal that finds new triggers takes one of them. */
  lemma ClearNew(news: seq<Trigger>, table: seq<Trigger>, mod: int, ids: seq<int>, again: seq<int>, n: nat)
    returns (i: nat)
    requires 0 < n <= |again| && MadeFor(news, mod, ids) && again[n - 1] in ids
    ensures i < |ids| && MadeFor(Without(news, i), mod, Without(ids, i))
    ensures multiset(Without(ids, i)) == multiset(ids) - multiset{again[n - 1]}
    ensures Cleared(news + table, mod, again, n) == Cleared(Without(news, i) + table, mod, again, n - 1)
  {
    i := RemoveNew(news, table, mod, ids, again[n - 1]);
    WithoutAt(ids, i);
  }

  lemma RemoveShort(table: seq<Trigger>, key: Key)
    ensures var r := RemoveFirst(table, HasKey(key));
      if NoneWith(table, key) then r == table else |r| == |table| - 1
  {
    var p := HasKey(key);
    if NoneWith(table, key) {
      FirstIs(table, p, |table|);
    } else {
      DeleteShapeOf(table, First(table, p));
    }
  }

  /** When every new trigger has its removal, the table comes back unless another removal takes an older
      trigger. */
  lemma {:induction false} RestoresExactly(news: seq<Trigger>, table: seq<Trigger>, mod: int, ids: seq<int>,
                                           again: seq<int>, n: nat)
    requires n <= |again| && MadeFor(news, mod, ids) && multiset(ids) <= multiset(again[..n])
    ensures |Cleared(news + table, mod, again, n)| <= |table|
    ensures Cleared(news + table, mod, again, n) == table
       <==> FindNothing(table, mod, multiset(again[..n]) - multiset(ids))
    decreases n
  {
    if n == 0 {
      assert |multiset(ids)| == |ids|;
      assert news + table == table;
    } else {
      var k := n - 1;
      var x := again[k];
      OneLess(again, n);
      if x in ids {
        var i := ClearNew(news, table, mod, ids, again, n);
        RestoresExactly(Without(news, i), table, mod, Without(ids, i), again, k);
        OneForOne(multiset(again[..k]), multiset(ids), x);
      } else {
        var rest := ClearOld(news, table, mod, ids, again, n);
        OneMore(multiset(again[..k]), multiset(ids), x);
        RestoresExactly(news, rest, mod, ids, again, k);
        OneFound(table, mod, multiset(again[..k]) - multiset(ids), x);
      }
    }
  }

  lemma OneForOne(a: multiset<int>, b: multiset<int>, x: int)
    requires x in b
    ensures a + multiset{x} - b == a - (b - multiset{x})
  {
  }

  lemma OneMore(a: multiset<int>, b: multiset<int>, x: int)
    requires x !in b && b <= a + multiset{x}
    ensures b <= a && a + multiset{x} - b == a - b + multiset{x}
  {
    assert forall y | y in b :: b[y] <= (a + multiset{x})[y];
  }

  lemma OneFound(table: seq<Trigger>, mod: int, extra: multiset<int>, x: int)
    ensures FindNothing(table, mod, extra + multiset{x}) <==> FindNothing(table, mod, extra) && NoneFiled(table, mod, x)
  {
    if FindNothing(table, mod, extra + multiset{x}) {
      forall y | y in extra ensures NoneFiled(table, mod, y) {
        assert y in extra + multiset{x};
      }
      assert x in extra + multiset{x};
    }
  }

  lemma MoreThan(a: multiset<int>, b: multiset<int>, y: int, x: int)
    requires a[x] > (b + multiset{y})[x]
    ensures a[x] > b[x] && (y in a ==> (a - multiset{y})[x] > b[x])
  {
  }

  /** When there are more new triggers for `x` than removals, a new trigger stays. */
  lemma {:induction false} NewStays(news: seq<Trigger>, table: seq<Trigger>, mod: int, ids: seq<int>,
                                    again: seq<int>, n: nat, x: int) returns (g: Trigger)
    requires n <= |again| && MadeFor(news, mod, ids) && multiset(ids)[x] > multiset(again[..n])[x]
    ensures g in news && g in Cleared(news + table, mod, again, n)
    decreases n
  {
    if n == 0 {
      assert x in ids;
      g := news[0];
    } else {
      var k := n - 1;
      OneLess(again, n);
      MoreThan(multiset(ids), multiset(again[..k]), again[k], x);
      if again[k] in ids {
        var i := ClearNew(news, table, mod, ids, again, n);
        g := NewStays(Without(news, i), table, mod, Without(ids, i), again, k, x);
        DeleteShapeOf(news, i);
      } else {
        var rest := ClearOld(news, table, mod, ids, again, n);
        g := NewStays(news, rest, mod, ids, again, k, x);
      }
    }
  }

  /** Asking for the measurements of `ids` and then removing those of `again` leaves the table as it was, older
      triggers with equal keys included, just when `again` undoes `ids`. */
  lemma UeMeasureRoundTrip(table: seq<Trigger>, next: int, mod: int, msg: Bytes, ids: seq<int>, again: seq<int>)
    requires Below(table, next)
    ensures Cleared(News(next, mod, msg, ids) + table, mod, again, |again|) == table
       <==> Undoes(table, mod, ids, again)
  {
    var news := News(next, mod, msg, ids);
    assert again[..|again|] == again;
    if multiset(ids) <= multiset(again) {
      RestoresExactly(news, table, mod, ids, again, |again|);
    } else {
      var x :| multiset(ids)[x] > multiset(again)[x];
      var g := NewStays(news, table, mod, ids, again, |again|, x);
      assert g.id >= next;
    }
  }

  /** The same ids with the same multiplicities, in any order, always undo; when only the last of them were
      added, just when nothing older was filed for the others. */
  lemma PartUndone(table: seq<Trigger>, mod: int, ids: seq<int>, again: seq<int>, n: nat)
    requires n <= |ids| && multiset(again) == multiset(ids)
    ensures Undoes(table, mod, ids[|ids| - n..], again)
       <==> forall x | x in ids[..|ids| - n] :: NoneFiled(table, mod, x)
  {
    var k := |ids| - n;
    assert ids == ids[..k] + ids[k..];
    assert multiset(again) - multiset(ids[k..]) == multiset(ids[..k]);
  }

  /** It does happen: when there was no memory for the request of UE `x`, its removal takes the trigger of an
      earlier one. */
  lemma TakesOlder(g: Trigger, mod: int, x: int)
    requires g.key == Key(mod, TR_TYPE_UE_MEAS, x)
    ensures !Undoes([g], mod, [], [x]) && Cleared([g], mod, [x], 1) == []
  {
    assert multiset([x]) - multiset([]) == multiset{x};
    assert x in multiset{x} && [g][0].key == Key(mod, TR_TYPE_UE_MEAS, x);
    FirstIs([g], HasKey(Key(mod, TR_TYPE_UE_MEAS, x)), 0);
  }

  // ------------------------------------- the handlers as runs of the machine

  /** What callers of the API do, and nobody else. */
  ghost predicate ApiOnly(acts: seq<Action>) {
    forall a | a in acts :: ByApi(a)
  }

  /** One request: a trigger, what others do meanwhile, and its task; or, when no task can be made, the
      end of the trigger. */
  function OneRequest(kind: Kind, mod: int, instance: int, msg: Bytes, others: seq<Action>, made: bool, at: Timespec)
    : seq<Action>
  {
    [Arm(kind, mod, instance, msg)] + others + [if made then Launch(at) else Disarm]
  }

  /** The requests for the last `n` of `ids`, last id first; others do `meantime(j)` during the j-th. */
  function AddActs(mod: int, ids: seq<int>, msg: Bytes, n: nat, meantime: nat -> seq<Action>, at: nat -> Timespec)
    : seq<Action>
    requires n <= |ids|
  {
    if n == 0 then []
    else
      var k := n - 1;
      AddActs(mod, ids, msg, k, meantime, at)
        + OneRequest(UeMeasure, mod, ids[|ids| - (k + 1)], msg, meantime(k), true, at(k))
  }

  /** One removal, before which others have their turn. */
  function OneRemoval(mod: int, x: int, others: seq<Action>): seq<Action> {
    others + [Disown(UeMeasure, mod, x)]
  }

  /** The removals for the last `n` of `ids`, last id first; others do `meantime(j)` before the j-th. */
  function RemoveActs(mod: int, ids: seq<int>, n: nat, meantime: nat -> seq<Action>): seq<Action>
    requires n <= |ids|
  {
    if n == 0 then []
    else
      var k := n - 1;
      RemoveActs(mod, ids, k, meantime) + OneRemoval(mod, ids[|ids| - (k + 1)], meantime(k))
  }

  lemma {:induction false} ForeignsAdd(v: Shared, a: seq<Action>, b: seq<Action>)
    ensures Foreigns(v, a + b) == Foreigns(Foreigns(v, a), b)
    decreases |b|
  {
    if b == [] {
      assert a + b == a;
    } else {
      var c := b[..|b| - 1];
      ForeignsAdd(v, a, c);
      assert (a + b)[..|a + b| - 1] == a + c;
    }
  }

  lemma ForeignsOne(v: Shared, a: Action)
    ensures Foreigns(v, [a]) == Foreign(v, a)
  {
    assert [a][..0] == [];
  }

  lemma ThreeSteps(v: Shared, a: Action, others: seq<Action>, b: Action)
    ensures Foreigns(v, [a] + others + [b]) == Foreign(Foreigns(Foreign(v, a), others), b)
  {
    ForeignsAdd(v, [a] + others, [b]);
    ForeignsAdd(v, [a], others);
    ForeignsOne(v, a);
    ForeignsOne(Foreigns(v, [a] + others), b);
  }

  /** A trigger and its task. */
  method AddOne(e: Emage, kind: Kind, mod: int, instance: int, msg: Bytes, others: seq<Action>, made: bool,
                at: Timespec)
    requires e.Ready() && ApiOnly(others)
    modifies e.Repr
    ensures e.Ready() && fresh(e.Repr - old(e.Repr))
    ensures e.view == Foreigns(old(e.view), OneRequest(kind, mod, instance, msg, others, made, at))
  {
    var arm, last := Arm(kind, mod, instance, msg), if made then Launch(at) else Disarm;
    ThreeSteps(e.view, arm, others, last);
    e.Other(arm);
    e.Others(others);
    e.Other(last);
  }

  /** The loop over the ids, from the last on, for `count` of them. */
  method AddMany(e: Emage, mod: int, ids: seq<int>, msg: Bytes, count: nat, meantime: nat -> seq<Action>,
                 at: nat -> Timespec)
    requires e.Ready() && count <= |ids| && forall j :: ApiOnly(meantime(j))
    modifies e.Repr
    ensures e.Ready() && fresh(e.Repr - old(e.Repr))
    ensures e.view == Foreigns(old(e.view), AddActs(mod, ids, msg, count, meantime, at))
  {
    ghost var v := e.view;
    for n := 0 to count
      invariant e.Ready() && fresh(e.Repr - old(e.Repr))
      invariant e.view == Foreigns(v, AddActs(mod, ids, msg, n, meantime, at))
    {
      MoreActs(v, mod, ids, msg, n, meantime, at);
      AddOne(e, UeMeasure, mod, ids[|ids| - (n + 1)], msg, meantime(n), true, at(n));
    }
  }

  lemma MoreActs(v: Shared, mod: int, ids: seq<int>, msg: Bytes, n: nat, meantime: nat -> seq<Action>,
                 at: nat -> Timespec)
    requires n < |ids|
    ensures Foreigns(v, AddActs(mod, ids, msg, n + 1, meantime, at))
      == Foreigns(Foreigns(v, AddActs(mod, ids, msg, n, meantime, at)),
                  OneRequest(UeMeasure, mod, ids[|ids| - (n + 1)], msg, meantime(n), true, at(n)))
  {
    ForeignsAdd(v, AddActs(mod, ids, msg, n, meantime, at),
                OneRequest(UeMeasure, mod, ids[|ids| - (n + 1)], msg, meantime(n), true, at(n)));
  }

  /** How many of `ids` there is memory for. */
  function Room(ids: seq<int>, room: nat): (n: nat)
    ensures n <= |ids| && n <= room && (n < |ids| ==> n == room)
  {
    if |ids| <= room then |ids| else room
  }

  /** All that `net_te_ue_measure` does for ADD when there is memory for the triggers and the tasks of only
      the last `room` ids; `halfway` says that what fails next is the task, not the trigger. */
  function AddRun(mod: int, ids: seq<int>, msg: Bytes, room: nat, halfway: bool,
                  meantime: nat -> seq<Action>, at: nat -> Timespec): seq<Action>
  {
    var n := Room(ids, room);
    var acts := AddActs(mod, ids, msg, n, meantime, at);
    if n < |ids| && halfway
    then acts + OneRequest(UeMeasure, mod, ids[|ids| - (n + 1)], msg, meantime(n), false, at(n)) else acts
  }

  /** `net_te_ue_measure` for ADD, callers of the API interfering. */
  method AddMeasurements(e: Emage, mod: int, ids: seq<int>, msg: Bytes, room: nat, halfway: bool,
                         meantime: nat -> seq<Action>, at: nat -> Timespec)
    requires e.Ready() && forall j :: ApiOnly(meantime(j))
    modifies e.Repr
    ensures e.Ready() && fresh(e.Repr - old(e.Repr))
    ensures e.view == Foreigns(old(e.view), AddRun(mod, ids, msg, room, halfway, meantime, at))
  {
    var n := Room(ids, room);
    if n < |ids| && halfway {
      HalfRun(e.view, mod, ids, msg, room, meantime, at);
      AddMany(e, mod, ids, msg, n, meantime, at);
      AddOne(e, UeMeasure, mod, ids[|ids| - (n + 1)], msg, meantime(n), false, at(n));
    } else {
      AddMany(e, mod, ids, msg, n, meantime, at);
    }
  }

  lemma HalfRun(v: Shared, mod: int, ids: seq<int>, msg: Bytes, room: nat, meantime: nat -> seq<Action>,
                at: nat -> Timespec)
    requires room < |ids|
    ensures Foreigns(v, AddRun(mod, ids, msg, room, true, meantime, at))
      == Foreigns(Foreigns(v, AddActs(mod, ids, msg, room, meantime, at)),
                  OneRequest(UeMeasure, mod, ids[|ids| - (room + 1)], msg, meantime(room), false, at(room)))
  {
    var a := AddActs(mod, ids, msg, room, meantime, at);
    var b := OneRequest(UeMeasure, mod, ids[|ids| - (room + 1)], msg, meantime(room), false, at(room));
    assert AddRun(mod, ids, msg, room, true, meantime, at) == a + b;
    ForeignsAdd(v, a, b);
  }

  lemma MoreRemoves(v: Shared, mod: int, ids: seq<int>, n: nat, meantime: nat -> seq<Action>)
    requires n < |ids|
    ensures Foreigns(v, RemoveActs(mod, ids, n + 1, meantime))
      == Foreigns(Foreigns(v, RemoveActs(mod, ids, n, meantime)), OneRemoval(mod, ids[|ids| - (n + 1)], meantime(n)))
  {
    ForeignsAdd(v, RemoveActs(mod, ids, n, meantime), OneRemoval(mod, ids[|ids| - (n + 1)], meantime(n)));
  }

  method RemoveOne(e: Emage, mod: int, x: int, others: seq<Action>)
    requires e.Ready() && ApiOnly(others)
    modifies e.Repr
    ensures e.Ready() && fresh(e.Repr - old(e.Repr)) && e.view == Foreigns(old(e.view), OneRemoval(mod, x, others))
  {
    ForeignsAdd(e.view, others, [Disown(UeMeasure, mod, x)]);
    ForeignsOne(Foreigns(e.view, others), Disown(UeMeasure, mod, x));
    e.Others(others);
    e.Other(Disown(UeMeasure, mod, x));
  }

  /** The `n`-th turn of the loop of removals that began at `v`. */
  method RemoveNext(e: Emage, ghost v: Shared, mod: int, ids: seq<int>, n: nat, meantime: nat -> seq<Action>)
    requires e.Ready() && n < |ids| && ApiOnly(meantime(n)) && e.view == Foreigns(v, RemoveActs(mod, ids, n, meantime))
    modifies e.Repr
    ensures e.Ready() && fresh(e.Repr - old(e.Repr))
    ensures e.view == Foreigns(v, RemoveActs(mod, ids, n + 1, meantime))
  {
    MoreRemoves(v, mod, ids, n, meantime);
    RemoveOne(e, mod, ids[|ids| - (n + 1)], meantime(n));
  }

  /** `net_te_ue_measure` for any other operation, callers of the API interfering. */
  method RemoveMeasurements(e: Emage, mod: int, ids: seq<int>, meantime: nat -> seq<Action>)
    requires e.Ready() && forall j :: ApiOnly(meantime(j))
    modifies e.Repr
    ensures e.Ready() && fresh(e.Repr - old(e.Repr))
    ensures e.view == Foreigns(old(e.view), RemoveActs(mod, ids, |ids|, meantime))
  {
    ghost var v := e.view;
    assert RemoveActs(mod, ids, 0, meantime) == [];
    for n := 0 to |ids|
      invariant e.Ready() && fresh(e.Repr - old(e.Repr))
      invariant e.view == Foreigns(v, RemoveActs(mod, ids, n, meantime))
    {
      RemoveNext(e, v, mod, ids, n, meantime);
    }
  }

  // ----------------------------------------- each handler is a run of the machine

  /** No step is the scheduler's. */
  ghost predicate NoneSched(acts: seq<Action>) {
    forall a | a in acts :: !BySched(a)
  }

  lemma RequestOthers(kind: Kind, mod: int, instance: int, msg: Bytes, others: seq<Action>, made: bool, at: Timespec)
    requires ApiOnly(others)
    ensures NoneSched(OneRequest(kind, mod, instance, msg, others, made, at))
  {
    forall a | a in OneRequest(kind, mod, instance, msg, others, made, at) ensures !BySched(a) {
      assert a.Arm? || a in others || a.Launch? || a.Disarm?;
    }
  }

  lemma {:induction false} AddActsOthers(mod: int, ids: seq<int>, msg: Bytes, n: nat, meantime: nat -> seq<Action>,
                                         at: nat -> Timespec)
    requires n <= |ids| && forall j :: ApiOnly(meantime(j))
    ensures NoneSched(AddActs(mod, ids, msg, n, meantime, at))
  {
    if n > 0 {
      var k := n - 1;
      AddActsOthers(mod, ids, msg, k, meantime, at);
      RequestOthers(UeMeasure, mod, ids[|ids| - (k + 1)], msg, meantime(k), true, at(k));
    }
  }

  lemma {:induction false} RemoveActsOthers(mod: int, ids: seq<int>, n: nat, meantime: nat -> seq<Action>)
    requires n <= |ids| && forall j :: ApiOnly(meantime(j))
    ensures NoneSched(RemoveActs(mod, ids, n, meantime))
  {
    if n > 0 {
      var k := n - 1;
      RemoveActsOthers(mod, ids, k, meantime);
      forall a | a in OneRemoval(mod, ids[|ids| - (k + 1)], meantime(k)) ensures !BySched(a) {
        assert a in meantime(k) || a.Disown?;
      }
    }
  }

  /** ADD, callers of the API interfering, is a run of the machine: what `AddMeasurements` leaves is what the
      contexts show at its end. */
  lemma AddIsRun(m: State, mod: int, ids: seq<int>, msg: Bytes, room: nat, halfway: bool,
                 meantime: nat -> seq<Action>, at: nat -> Timespec)
    requires forall j :: ApiOnly(meantime(j))
    ensures var acts := AddRun(mod, ids, msg, room, halfway, meantime, at);
      Seen(Exec(m, acts)) == Foreigns(Seen(m), acts)
  {
    var n := Room(ids, room);
    AddActsOthers(mod, ids, msg, n, meantime, at);
    if n < |ids| && halfway {
      RequestOthers(UeMeasure, mod, ids[|ids| - (n + 1)], msg, meantime(n), false, at(n));
    }
    SeenForeigns(m, AddRun(mod, ids, msg, room, halfway, meantime, at));
  }

  /** So are the removals. */
  lemma RemoveIsRun(m: State, mod: int, ids: seq<int>, meantime: nat -> seq<Action>)
    requires forall j :: ApiOnly(meantime(j))
    ensures var acts := RemoveActs(mod, ids, |ids|, meantime);
      Seen(Exec(m, acts)) == Foreigns(Seen(m), acts)
  {
    RemoveActsOthers(mod, ids, |ids|, meantime);
    SeenForeigns(m, RemoveActs(mod, ids, |ids|, meantime));
  }

  // -------------------------------------------------- what they come to, alone

  function Nobody(): nat -> seq<Action> {
    (j: nat) => []
  }

  /** The tasks that go with `n` new triggers numbered from `next` on. */
  function NewTasks(made: nat, next: int, n: nat, at: nat -> Timespec): (r: seq<Task>)
    ensures |r| == n
  {
    seq(n, j requires 0 <= j < n => Task(made + j, UeMeasure, 1, 0, next + j, 0, at(j)))
  }

  /** The triggers of the last `n` of `ids` in front of the table, and their tasks, unless the scheduler is
      stopped, behind the queue. */
  function Added(v: Shared, mod: int, msg: Bytes, ids: seq<int>, n: nat, at: nat -> Timespec): Shared
    requires n <= |ids|
  {
    v.(table := News(v.next, mod, msg, ids[|ids| - n..]) + v.table, next := v.next + n,
       jobs := if v.stop then v.jobs else v.jobs + NewTasks(v.made, v.next, n, at), made := v.made + n)
  }

  /** One more. */
  function WithOne(v: Shared, kind: Kind, key: Key, msg: Bytes, at: Timespec): Shared {
    v.(table := [Trigger(v.next, key, msg)] + v.table, next := v.next + 1,
       jobs := if v.stop then v.jobs else v.jobs + [Task(v.made, kind, 1, 0, v.next, 0, at)], made := v.made + 1)
  }

  lemma ArmIs(v: Shared, a: Action)
    requires a.Arm? && v.npc.Idle? && Triggered(a.kind) && v.next < INT_MAX
    ensures Foreign(v, a) == View.Armed(v, a.kind, ArmKey(a.kind, a.mod, a.instance), a.msg)
  {
  }

  lemma LaunchIs(v: Shared, a: Action)
    requires a.Launch? && v.npc.Armed?
    ensures Foreign(v, a) == Enqueued(v, TriggerTask(v.npc.kind, v.npc.trigger, a.at), false).(npc := Idle)
  {
  }

  lemma DisarmIs(v: Shared, a: Action)
    requires a.Disarm? && v.npc.Armed?
    ensures Foreign(v, a) == v.(table := RemoveFirst(v.table, HasId(v.npc.trigger.id)), npc := Idle)
  {
  }

  lemma RequestAlone(v: Shared, kind: Kind, mod: int, instance: int, msg: Bytes, at: Timespec)
    requires v.npc.Idle? && Triggered(kind) && v.next < INT_MAX
    ensures Foreigns(v, OneRequest(kind, mod, instance, msg, [], true, at))
         == WithOne(v, kind, ArmKey(kind, mod, instance), msg, at)
  {
    var a, b := Arm(kind, mod, instance, msg), Launch(at);
    ThreeSteps(v, a, [], b);
    ArmIs(v, a);
    LaunchIs(Foreign(v, a), b);
  }

  /** A trigger whose task cannot be made goes again. */
  lemma RequestHalf(v: Shared, kind: Kind, mod: int, instance: int, msg: Bytes, at: Timespec)
    requires v.npc.Idle? && Triggered(kind) && v.next < INT_MAX
    ensures Foreigns(v, OneRequest(kind, mod, instance, msg, [], false, at)) == v.(next := v.next + 1)
  {
    var a, b := Arm(kind, mod, instance, msg), Disarm;
    ThreeSteps(v, a, [], b);
    ArmIs(v, a);
    DisarmIs(Foreign(v, a), b);
    RemovesNew(v.table, Trigger(v.next, ArmKey(kind, mod, instance), msg));
  }

  lemma RemovesNew(table: seq<Trigger>, g: Trigger)
    ensures RemoveFirst([g] + table, HasId(g.id)) == table
  {
  }

  lemma AddedStart(v: Shared, mod: int, msg: Bytes, ids: seq<int>, at: nat -> Timespec)
    ensures Added(v, mod, msg, ids, 0, at) == v
  {
    assert News(v.next, mod, msg, []) == [] && [] + v.table == v.table;
    assert v.jobs + [] == v.jobs;
  }

  lemma TableGrows(next: int, mod: int, msg: Bytes, x: int, ids: seq<int>, table: seq<Trigger>)
    ensures News(next, mod, msg, [x] + ids) + table
         == [Trigger(next + |ids|, Key(mod, TR_TYPE_UE_MEAS, x), msg)] + (News(next, mod, msg, ids) + table)
  {
  }

  lemma QueueGrows(made: nat, next: int, n: nat, at: nat -> Timespec, jobs: seq<Task>)
    ensures jobs + NewTasks(made, next, n + 1, at)
         == (jobs + NewTasks(made, next, n, at)) + [Task(made + n, UeMeasure, 1, 0, next + n, 0, at(n))]
  {
  }

  lemma TailGrows(ids: seq<int>, i: nat)
    requires i < |ids|
    ensures ids[i..] == [ids[i]] + ids[i + 1..]
  {
  }

  lemma AddedStep(v: Shared, mod: int, msg: Bytes, ids: seq<int>, n: nat, at: nat -> Timespec)
    requires n < |ids|
    ensures var key := Key(mod, TR_TYPE_UE_MEAS, ids[|ids| - (n + 1)]);
      WithOne(Added(v, mod, msg, ids, n, at), UeMeasure, key, msg, at(n))
         == Added(v, mod, msg, ids, n + 1, at)
  {
    TailGrows(ids, |ids| - (n + 1));
    TableGrows(v.next, mod, msg, ids[|ids| - (n + 1)], ids[|ids| - n..], v.table);
    QueueGrows(v.made, v.next, n, at, v.jobs);
  }

  /** `f` goes on from one request to the next. */
  ghost predicate AddsTo(f: nat -> Shared, mod: int, ids: seq<int>, msg: Bytes, at: nat -> Timespec, k: nat)
    requires k < |ids|
  {
    f(k).npc.Idle? && f(k).next < INT_MAX ==>
      f(k + 1) == WithOne(f(k), UeMeasure, Key(mod, TR_TYPE_UE_MEAS, ids[|ids| - (k + 1)]), msg, at(k))
  }

  lemma {:induction false} AddsUp(f: nat -> Shared, mod: int, ids: seq<int>, msg: Bytes, at: nat -> Timespec, n: nat)
    requires n <= |ids| && f(0).npc.Idle? && f(0).next + n <= INT_MAX
    requires forall k: nat | k < |ids| :: AddsTo(f, mod, ids, msg, at, k)
    ensures f(n) == Added(f(0), mod, msg, ids, n, at)
  {
    if n == 0 {
      AddedStart(f(0), mod, msg, ids, at);
    } else {
      var k := n - 1;
      AddsUp(f, mod, ids, msg, at, k);
      assert AddsTo(f, mod, ids, msg, at, k);
      AddedStep(f(0), mod, msg, ids, k, at);
    }
  }

  /** What the first `k` requests leave. */
  function AfterAdds(v: Shared, mod: int, ids: seq<int>, msg: Bytes, meantime: nat -> seq<Action>,
                     at: nat -> Timespec): nat -> Shared {
    (k: nat) => if k <= |ids| then Foreigns(v, AddActs(mod, ids, msg, k, meantime, at)) else v
  }

  lemma AddsOne(v: Shared, mod: int, ids: seq<int>, msg: Bytes, at: nat -> Timespec, k: nat)
    requires k < |ids|
    ensures AddsTo(AfterAdds(v, mod, ids, msg, Nobody(), at), mod, ids, msg, at, k)
  {
    var w := AfterAdds(v, mod, ids, msg, Nobody(), at)(k);
    if w.npc.Idle? && w.next < INT_MAX {
      MoreActs(v, mod, ids, msg, k, Nobody(), at);
      assert Nobody()(k) == [];
      RequestAlone(w, UeMeasure, mod, ids[|ids| - (k + 1)], msg, at(k));
    }
  }

  lemma AddsAlone(v: Shared, mod: int, ids: seq<int>, msg: Bytes, n: nat, at: nat -> Timespec)
    requires n <= |ids| && v.npc.Idle? && v.next + n <= INT_MAX
    ensures Foreigns(v, AddActs(mod, ids, msg, n, Nobody(), at)) == Added(v, mod, msg, ids, n, at)
  {
    var f := AfterAdds(v, mod, ids, msg, Nobody(), at);
    forall k: nat | k < |ids| ensures AddsTo(f, mod, ids, msg, at, k) {
      AddsOne(v, mod, ids, msg, at, k);
    }
    assert f(0) == v;
    AddsUp(f, mod, ids, msg, at, n);
  }

  lemma HalfComesTo(v: Shared, w: Shared, mod: int, ids: seq<int>, msg: Bytes, room: nat, at: nat -> Timespec)
    requires room < |ids| && w == Foreigns(v, AddActs(mod, ids, msg, room, Nobody(), at))
    requires w.npc.Idle? && w.next < INT_MAX
    ensures Foreigns(v, AddRun(mod, ids, msg, room, true, Nobody(), at)) == w.(next := w.next + 1)
  {
    HalfRun(v, mod, ids, msg, room, Nobody(), at);
    assert Nobody()(room) == [];
    RequestHalf(w, UeMeasure, mod, ids[|ids| - (room + 1)], msg, at(room));
  }

  /** Left alone, ADD puts a trigger for each id there is memory for in front of the table and a task for it
      behind the queue, and leaves no trigger without a task. */
  lemma AddComesTo(v: Shared, mod: int, ids: seq<int>, msg: Bytes, room: nat, halfway: bool, at: nat -> Timespec)
    returns (w: Shared)
    requires v.npc.Idle? && v.next + |ids| <= INT_MAX
    ensures var n := Room(ids, room);
      w == Added(v, mod, msg, ids, n, at) && w.npc.Idle? && w.next == v.next + n
    ensures Foreigns(v, AddRun(mod, ids, msg, room, halfway, Nobody(), at))
         == if room < |ids| && halfway then w.(next := w.next + 1) else w
  {
    var n := Room(ids, room);
    AddsAlone(v, mod, ids, msg, n, at);
    w := Added(v, mod, msg, ids, n, at);
    if n < |ids| && halfway {
      HalfComesTo(v, w, mod, ids, msg, room, at);
    }
  }

  lemma DisownIs(v: Shared, a: Action)
    requires a.Disown? && v.npc.Idle? && Triggered(a.kind)
    ensures Foreign(v, a) == v.(table := RemoveFirst(v.table, HasKey(DisownKey(a.kind, a.mod, a.instance))))
  {
  }

  lemma RemovalAlone(v: Shared, mod: int, x: int)
    requires v.npc.Idle?
    ensures Foreigns(v, OneRemoval(mod, x, []))
         == v.(table := RemoveFirst(v.table, HasKey(Key(mod, TR_TYPE_UE_MEAS, x))))
  {
    var a := Disown(UeMeasure, mod, x);
    assert OneRemoval(mod, x, []) == [a];
    ForeignsOne(v, a);
    DisownIs(v, a);
  }

  /** `f` goes on from one removal to the next. */
  ghost predicate RemovesFrom(f: nat -> Shared, mod: int, ids: seq<int>, k: nat)
    requires k < |ids|
  {
    f(k).npc.Idle? ==>
      f(k + 1) == f(k).(table := RemoveFirst(f(k).table, HasKey(Key(mod, TR_TYPE_UE_MEAS, ids[|ids| - (k + 1)]))))
  }

  /** What of the contexts is about triggers. */
  datatype Filed = Filed(table: seq<Trigger>, next: int, npc: NetPc)

  function FiledIn(v: Shared): Filed {
    Filed(v.table, v.next, v.npc)
  }

  /** As far as triggers go, `f` goes on from one removal to the next. */
  ghost predicate UnfilesFrom(f: nat -> Shared, mod: int, ids: seq<int>, k: nat)
    requires k < |ids|
  {
    f(k).npc.Idle? ==>
      FiledIn(f(k + 1))
        == FiledIn(f(k)).(table := RemoveFirst(f(k).table, HasKey(Key(mod, TR_TYPE_UE_MEAS, ids[|ids| - (k + 1)]))))
  }

  lemma {:induction false} Chain<X>(g: nat -> X, n: nat)
    requires forall k: nat | k < n && g(k) == g(0) :: g(k + 1) == g(0)
    ensures g(n) == g(0)
  {
    if n > 0 {
      Chain(g, n - 1);
      assert g(n - 1 + 1) == g(0);
    }
  }

  /** What the removals still to come leave of the table, and where the network thread is. */
  function ToRemain(f: nat -> Shared, mod: int, ids: seq<int>): nat -> (seq<Trigger>, NetPc) {
    (k: nat) => if k <= |ids| then (Cleared(f(k).table, mod, ids, |ids| - k), f(k).npc) else (f(0).table, f(0).npc)
  }

  lemma ToRemainStep(f: nat -> Shared, mod: int, ids: seq<int>, k: nat)
    requires k < |ids| && UnfilesFrom(f, mod, ids, k) && f(k).npc.Idle?
    ensures ToRemain(f, mod, ids)(k + 1) == ToRemain(f, mod, ids)(k)
  {
  }

  lemma UnfilesUp(f: nat -> Shared, mod: int, ids: seq<int>)
    requires f(0).npc.Idle? && forall k: nat | k < |ids| :: UnfilesFrom(f, mod, ids, k)
    ensures f(|ids|).table == Cleared(f(0).table, mod, ids, |ids|)
  {
    var g := ToRemain(f, mod, ids);
    forall k: nat | k < |ids| && g(k) == g(0) ensures g(k + 1) == g(0) {
      assert g(k).1 == f(k).npc && g(0).1 == f(0).npc;
      ToRemainStep(f, mod, ids, k);
    }
    Chain(g, |ids|);
  }

  /** All but the table. */
  function Rest(f: nat -> Shared): nat -> Shared {
    (k: nat) => f(k).(table := [])
  }

  lemma RestStep(f: nat -> Shared, mod: int, ids: seq<int>, k: nat)
    requires k < |ids| && RemovesFrom(f, mod, ids, k) && f(k).npc.Idle?
    ensures Rest(f)(k + 1) == Rest(f)(k) && UnfilesFrom(f, mod, ids, k)
  {
  }

  lemma RemovesUp(f: nat -> Shared, mod: int, ids: seq<int>)
    requires f(0).npc.Idle? && forall k: nat | k < |ids| :: RemovesFrom(f, mod, ids, k)
    ensures f(|ids|) == f(0).(table := Cleared(f(0).table, mod, ids, |ids|))
  {
    forall k: nat | k < |ids| ensures UnfilesFrom(f, mod, ids, k) {
      if f(k).npc.Idle? {
        RestStep(f, mod, ids, k);
      }
    }
    UnfilesUp(f, mod, ids);
    var g := Rest(f);
    forall k: nat | k < |ids| && g(k) == g(0) ensures g(k + 1) == g(0) {
      assert g(k).npc == f(k).npc && g(0).npc == f(0).npc;
      RestStep(f, mod, ids, k);
    }
    Chain(g, |ids|);
    assert f(|ids|) == g(|ids|).(table := f(|ids|).table);
  }

  /** What the first `k` removals leave. */
  function AfterRemoves(v: Shared, mod: int, ids: seq<int>, meantime: nat -> seq<Action>): nat -> Shared {
    (k: nat) => if k <= |ids| then Foreigns(v, RemoveActs(mod, ids, k, meantime)) else v
  }

  lemma RemovesOne(v: Shared, mod: int, ids: seq<int>, k: nat)
    requires k < |ids|
    ensures RemovesFrom(AfterRemoves(v, mod, ids, Nobody()), mod, ids, k)
  {
    var w := AfterRemoves(v, mod, ids, Nobody())(k);
    if w.npc.Idle? {
      MoreRemoves(v, mod, ids, k, Nobody());
      assert Nobody()(k) == [];
      RemovalAlone(w, mod, ids[|ids| - (k + 1)]);
    }
  }

  /** Left alone, any other operation removes, for each id, the first trigger with its key. */
  lemma RemoveComesTo(v: Shared, mod: int, ids: seq<int>)
    requires v.npc.Idle?
    ensures Foreigns(v, RemoveActs(mod, ids, |ids|, Nobody())) == v.(table := Cleared(v.table, mod, ids, |ids|))
  {
    var f := AfterRemoves(v, mod, ids, Nobody());
    forall k: nat | k < |ids| ensures RemovesFrom(f, mod, ids, k) {
      RemovesOne(v, mod, ids, k);
    }
    assert f(0) == v;
    RemovesUp(f, mod, ids);
  }

  // --------------------------------------- the round trip, others sending meanwhile

  /** What callers of the API do that leaves the triggers alone: they send, and they stop the agent. */
  ghost predicate SendOnly(acts: seq<Action>) {
    forall a | a in acts :: a.Submit? || a.RaiseStop?
  }

  lemma {:induction false} SendsKeep(v: Shared, acts: seq<Action>)
    requires SendOnly(acts)
    ensures FiledIn(Foreigns(v, acts)) == FiledIn(v)
    decreases |acts|
  {
    if acts != [] {
      var b, a := acts[..|acts| - 1], acts[|acts| - 1];
      SendsKeep(v, b);
      assert a in acts;
    }
  }

  lemma RequestFiles(v: Shared, kind: Kind, mod: int, x: int, key: Key, msg: Bytes, others: seq<Action>, made: bool,
                     at: Timespec)
    requires v.npc.Idle? && v.next < INT_MAX && SendOnly(others) && Triggered(kind) && key == ArmKey(kind, mod, x)
    ensures FiledIn(Foreigns(v, OneRequest(kind, mod, x, msg, others, made, at)))
         == Filed(if made then [Trigger(v.next, key, msg)] + v.table else v.table, v.next + 1, Idle)
  {
    var a, b := Arm(kind, mod, x, msg), if made then Launch(at) else Disarm;
    ThreeSteps(v, a, others, b);
    ArmIs(v, a);
    SendsKeep(Foreign(v, a), others);
    if made {
      LaunchIs(Foreigns(Foreign(v, a), others), b);
    } else {
      DisarmIs(Foreigns(Foreign(v, a), others), b);
      RemovesNew(v.table, Trigger(v.next, key, msg));
    }
  }

  lemma RemovalFiles(v: Shared, mod: int, x: int, others: seq<Action>)
    requires v.npc.Idle? && SendOnly(others)
    ensures FiledIn(Foreigns(v, OneRemoval(mod, x, others)))
         == FiledIn(v).(table := RemoveFirst(v.table, HasKey(Key(mod, TR_TYPE_UE_MEAS, x))))
  {
    var a := Disown(UeMeasure, mod, x);
    ForeignsAdd(v, others, [a]);
    ForeignsOne(Foreigns(v, others), a);
    SendsKeep(v, others);
    DisownIs(Foreigns(v, others), a);
  }

  /** As far as triggers go, `f` goes on from one request to the next. */
  ghost predicate FilesTo(f: nat -> Shared, mod: int, ids: seq<int>, msg: Bytes, k: nat)
    requires k < |ids|
  {
    f(k).npc.Idle? && f(k).next < INT_MAX ==>
      FiledIn(f(k + 1))
        == Filed([Trigger(f(k).next, Key(mod, TR_TYPE_UE_MEAS, ids[|ids| - (k + 1)]), msg)] + f(k).table,
                 f(k).next + 1, Idle)
  }

  /** The triggers of the last `n` of `ids` in front of the table. */
  function MoreFiled(v: Filed, mod: int, msg: Bytes, ids: seq<int>, n: nat): Filed
    requires n <= |ids|
  {
    v.(table := News(v.next, mod, msg, ids[|ids| - n..]) + v.table, next := v.next + n)
  }

  lemma {:induction false} FilesUp(f: nat -> Shared, mod: int, ids: seq<int>, msg: Bytes, n: nat)
    requires n <= |ids| && f(0).npc.Idle? && f(0).next + n <= INT_MAX
    requires forall k: nat | k < |ids| :: FilesTo(f, mod, ids, msg, k)
    ensures FiledIn(f(n)) == MoreFiled(FiledIn(f(0)), mod, msg, ids, n)
  {
    if n == 0 {
      assert News(f(0).next, mod, msg, []) == [] && [] + f(0).table == f(0).table;
    } else {
      var k := n - 1;
      FilesUp(f, mod, ids, msg, k);
      assert FilesTo(f, mod, ids, msg, k);
      TailGrows(ids, |ids| - n);
      TableGrows(f(0).next, mod, msg, ids[|ids| - n], ids[|ids| - k..], f(0).table);
    }
  }

  lemma FilesOne(v: Shared, mod: int, ids: seq<int>, msg: Bytes, meantime: nat -> seq<Action>, at: nat -> Timespec,
                 k: nat)
    requires k < |ids| && SendOnly(meantime(k))
    ensures FilesTo(AfterAdds(v, mod, ids, msg, meantime, at), mod, ids, msg, k)
  {
    var w := AfterAdds(v, mod, ids, msg, meantime, at)(k);
    if w.npc.Idle? && w.next < INT_MAX {
      MoreActs(v, mod, ids, msg, k, meantime, at);
      var x := ids[|ids| - (k + 1)];
      RequestFiles(w, UeMeasure, mod, x, Key(mod, TR_TYPE_UE_MEAS, x), msg, meantime(k), true, at(k));
    }
  }

  lemma FilesAll(v: Shared, mod: int, ids: seq<int>, msg: Bytes, n: nat, meantime: nat -> seq<Action>,
                 at: nat -> Timespec)
    requires n <= |ids| && v.npc.Idle? && v.next + n <= INT_MAX && forall j :: SendOnly(meantime(j))
    ensures FiledIn(Foreigns(v, AddActs(mod, ids, msg, n, meantime, at))) == MoreFiled(FiledIn(v), mod, msg, ids, n)
  {
    var f := AfterAdds(v, mod, ids, msg, meantime, at);
    forall k: nat | k < |ids| ensures FilesTo(f, mod, ids, msg, k) {
      FilesOne(v, mod, ids, msg, meantime, at, k);
    }
    assert f(0) == v;
    FilesUp(f, mod, ids, msg, n);
  }

  /** The request that fails halfway, after those that had memory, changes no table. */
  lemma HalfFiles(v: Shared, w: Shared, mod: int, ids: seq<int>, msg: Bytes, room: nat,
                  meantime: nat -> seq<Action>, at: nat -> Timespec)
    requires room < |ids| && w == Foreigns(v, AddActs(mod, ids, msg, room, meantime, at))
    requires w.npc.Idle? && w.next < INT_MAX && SendOnly(meantime(room))
    ensures FiledIn(Foreigns(v, AddRun(mod, ids, msg, room, true, meantime, at))) == FiledIn(w).(next := w.next + 1)
  {
    HalfRun(v, mod, ids, msg, room, meantime, at);
    var x := ids[|ids| - (room + 1)];
    RequestFiles(w, UeMeasure, mod, x, Key(mod, TR_TYPE_UE_MEAS, x), msg, meantime(room), false, at(room));
  }

  /** While others only send, ADD puts just the triggers there is memory for in front of the table. */
  lemma AddFiles(v: Shared, mod: int, ids: seq<int>, msg: Bytes, room: nat, halfway: bool,
                 meantime: nat -> seq<Action>, at: nat -> Timespec)
    requires v.npc.Idle? && v.next + |ids| <= INT_MAX && forall j :: SendOnly(meantime(j))
    ensures var w := Foreigns(v, AddRun(mod, ids, msg, room, halfway, meantime, at));
      w.npc.Idle? && w.table == News(v.next, mod, msg, ids[|ids| - Room(ids, room)..]) + v.table
  {
    var n := Room(ids, room);
    FilesAll(v, mod, ids, msg, n, meantime, at);
    if n < |ids| && halfway {
      HalfFiles(v, Foreigns(v, AddActs(mod, ids, msg, n, meantime, at)), mod, ids, msg, room, meantime, at);
    }
  }

  lemma UnfilesOne(v: Shared, mod: int, ids: seq<int>, meantime: nat -> seq<Action>, k: nat)
    requires k < |ids| && SendOnly(meantime(k))
    ensures UnfilesFrom(AfterRemoves(v, mod, ids, meantime), mod, ids, k)
  {
    var w := AfterRemoves(v, mod, ids, meantime)(k);
    if w.npc.Idle? {
      MoreRemoves(v, mod, ids, k, meantime);
      RemovalFiles(w, mod, ids[|ids| - (k + 1)], meantime(k));
    }
  }

  /** While others only send, the removals clear the table as they do alone. */
  lemma RemoveFiles(v: Shared, mod: int, ids: seq<int>, meantime: nat -> seq<Action>)
    requires v.npc.Idle? && forall j :: SendOnly(meantime(j))
    ensures Foreigns(v, RemoveActs(mod, ids, |ids|, meantime)).table == Cleared(v.table, mod, ids, |ids|)
  {
    var f := AfterRemoves(v, mod, ids, meantime);
    forall k: nat | k < |ids| ensures UnfilesFrom(f, mod, ids, k) {
      UnfilesOne(v, mod, ids, meantime, k);
    }
    assert f(0) == v;
    UnfilesUp(f, mod, ids);
  }

  /** ADD with memory for the last `room` ids, and then the removal of `again`, others sending meanwhile: the
      table is as it was just when `again` undoes what was added. */
  method AddThenRemove(e: Emage, mod: int, ids: seq<int>, again: seq<int>, msg: Bytes, room: nat, halfway: bool,
                       meantime: nat -> seq<Action>, between: nat -> seq<Action>, at: nat -> Timespec)
    requires e.Ready() && e.npc.Idle? && e.trig.next + |ids| <= INT_MAX
    requires forall j :: SendOnly(meantime(j)) && SendOnly(between(j))
    modifies e.Repr
    ensures e.Ready() && fresh(e.Repr - old(e.Repr))
    ensures e.trig.Table == old(e.trig.Table)
       <==> Undoes(old(e.trig.Table), mod, ids[|ids| - Room(ids, room)..], again)
  {
    ghost var v, some := e.view, ids[|ids| - Room(ids, room)..];
    e.IdsBelow();
    AddFiles(v, mod, ids, msg, room, halfway, meantime, at);
    AddMeasurements(e, mod, ids, msg, room, halfway, meantime, at);
    RemoveFiles(e.view, mod, again, between);
    RemoveMeasurements(e, mod, again, between);
    UeMeasureRoundTrip(v.table, v.next, mod, msg, some, again);
  }
}
