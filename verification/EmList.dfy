/** The intrusive circular doubly linked list of agent/emlist.h, on the heap.

    A C `struct list_head` is a member of the structure it links, and `container_of` goes from the
    member back to that structure. Here the node holds the remaining members of the structure in
    `entry`, so `container_of` is a field access; `entry` of a list head means nothing, just as
    `container_of` of a list head does. `LIST_POISON1` and `LIST_POISON2` are both `null`. */
module EmList {

  class ListHead<T(0)> {
    var next: ListHead?<T>
    var prev: ListHead?<T>
    var entry: T

    /** `INIT_LIST_HEAD` on new memory: an empty ring. */
    constructor Head()
      ensures next == this && prev == this
    {
      next, prev := this, this;
    }

    /** A structure that holds `e`, with its list member initialised. */
    constructor Entry(e: T)
      ensures next == this && prev == this && entry == e
    {
      next, prev, entry := this, this, e;
    }
  }

  ghost predicate Distinct<X>(s: seq<X>) {
    forall i, j | 0 <= i < j < |s| :: s[i] != s[j]
  }

  /** `head` is the head of a well-formed ring whose entries, in order, are `s`. */
  ghost predicate Ring<T(0)>(head: ListHead<T>, s: seq<ListHead<T>>)
    reads head, s
  {
    && head !in s
    && Distinct(s)
    && head.next == (if s == [] then head else s[0])
    && head.prev == (if s == [] then head else s[|s| - 1])
    && (forall i {:trigger s[i].next} | 0 <= i < |s| :: s[i].next == if i + 1 < |s| then s[i + 1] else head)
    && (forall i {:trigger s[i].prev} | 0 <= i < |s| :: s[i].prev == if 0 < i then s[i - 1] else head)
  }

  /** The node before position `k`, which is the head when `k` is 0. */
  ghost function Before<T(0)>(head: ListHead<T>, s: seq<ListHead<T>>, k: nat): ListHead<T>
    requires k <= |s|
  {
    if k == 0 then head else s[k - 1]
  }

  /** The node at position `k`, which is the head when `k` is the length. */
  ghost function From<T(0)>(head: ListHead<T>, s: seq<ListHead<T>>, k: nat): ListHead<T>
    requires k <= |s|
  {
    if k == |s| then head else s[k]
  }

  /** The structures the nodes of `s` are embedded in are `e`. */
  ghost predicate Holds<T(0)>(s: seq<ListHead<T>>, e: seq<T>)
    reads (set x | x in s)`entry
  {
    |s| == |e| && forall i | 0 <= i < |s| :: s[i].entry == e[i]
  }

  /** What there is to keep about a list: the links of its nodes, and what they hold. */
  datatype Aspect = Links | Entries

  // ---------------------------------------------------------------- insertion

  /** Inserting a new element at `k` keeps the elements distinct and shifts those from `k` on. */
  lemma InsertShape<X>(s: seq<X>, k: nat, n: X)
    requires k <= |s| && Distinct(s) && n !in s
    ensures var r := s[..k] + [n] + s[k..];
      && |r| == |s| + 1 && Distinct(r) && r[k] == n
      && (forall i | 0 <= i < k :: r[i] == s[i])
      && (forall i | k < i < |r| :: r[i] == s[i - 1])
  {
  }

  /** `__list_add`: link `n` between the consecutive nodes `p` and `q`. */
  method ListInsert<T(0)>(n: ListHead<T>, p: ListHead<T>, q: ListHead<T>,
                          ghost head: ListHead<T>, ghost s: seq<ListHead<T>>, ghost k: nat)
    requires k <= |s| && Ring(head, s)
    requires n != head && n !in s
    requires p == Before(head, s, k) && q == From(head, s, k)
    modifies n`next, n`prev, p`next, q`prev
    ensures Ring(head, s[..k] + [n] + s[k..])
  {
    q.prev := n;
    n.next := q;
    n.prev := p;
    p.next := n;
    InsertShape(s, k, n);
  }

  method ListAdd<T(0)>(n: ListHead<T>, head: ListHead<T>, ghost s: seq<ListHead<T>>)
    requires Ring(head, s)
    requires n != head && n !in s
    modifies n`next, n`prev, head`next, From(head, s, 0)`prev
    ensures Ring(head, [n] + s)
  {
    ListInsert(n, head, head.next, head, s, 0);
    assert s[..0] + [n] + s[0..] == [n] + s;
  }

  method ListAddTail<T(0)>(n: ListHead<T>, head: ListHead<T>, ghost s: seq<ListHead<T>>)
    requires Ring(head, s)
    requires n != head && n !in s
    modifies n`next, n`prev, head`prev, Before(head, s, |s|)`next
    ensures Ring(head, s + [n])
  {
    ListInsert(n, head.prev, head, head, s, |s|);
    assert s[..|s|] + [n] + s[|s|..] == s + [n];
  }

  // ----------------------------------------------------------------- deletion

  /** `s` without its element at position `k`. */
  function Without<X>(s: seq<X>, k: nat): seq<X>
    requires k < |s|
  {
    s[..k] + s[k + 1..]
  }

  lemma DeleteShape<X>(s: seq<X>, k: nat)
    requires k < |s| && Distinct(s)
    ensures var r := Without(s, k);
      && |r| == |s| - 1 && Distinct(r) && s[k] !in r
      && (forall i | 0 <= i < k :: r[i] == s[i])
      && (forall i | k <= i < |r| :: r[i] == s[i + 1])
  {
  }

  /** `__list_del`: make `p` and `q`, the neighbours of position `k`, point to each other. */
  method ListUnlink<T(0)>(p: ListHead<T>, q: ListHead<T>,
                          ghost head: ListHead<T>, ghost s: seq<ListHead<T>>, ghost k: nat)
    requires k < |s| && Ring(head, s)
    requires p == Before(head, s, k) && q == From(head, s, k + 1)
    modifies p`next, q`prev
    ensures Ring(head, Without(s, k))
    ensures s[k].next == q && s[k].prev == p
  {
    q.prev := p;
    p.next := q;
    DeleteShape(s, k);
  }

  method ListDel<T(0)>(e: ListHead<T>, ghost head: ListHead<T>, ghost s: seq<ListHead<T>>, ghost k: nat)
    requires k < |s| && Ring(head, s) && e == s[k]
    modifies e`next, e`prev, Before(head, s, k)`next, From(head, s, k + 1)`prev
    ensures Ring(head, Without(s, k))
    ensures e.next == null && e.prev == null
  {
    ListUnlink(e.prev, e.next, head, s, k);
    e.next := null;
    e.prev := null;
  }

  /** `list_del_init`: the entry becomes an empty ring of its own. */
  method ListDelInit<T(0)>(e: ListHead<T>, ghost head: ListHead<T>, ghost s: seq<ListHead<T>>, ghost k: nat)
    requires k < |s| && Ring(head, s) && e == s[k]
    modifies e`next, e`prev, Before(head, s, k)`next, From(head, s, k + 1)`prev
    ensures Ring(head, Without(s, k)) && Ring(e, [])
  {
    DeleteShape(s, k);
    ListUnlink(e.prev, e.next, head, s, k);
    e.next := e;
    e.prev := e;
  }

  /** `list_replace`. The node replaced is the entry at `k`, or, when `k` is the length, the head:
      then `n` heads the same entries. The old node keeps its links, except that an old head with
      no entries is overwritten: that is how `n` comes to point at itself. */
  method ListReplace<T(0)>(o: ListHead<T>, n: ListHead<T>, ghost head: ListHead<T>, ghost s: seq<ListHead<T>>,
                           ghost k: nat)
    requires Ring(head, s) && n != head && n !in s
    requires k <= |s| && o == From(head, s, k)
    modifies n`next, n`prev
    modifies if k < |s| then {Before(head, s, k)} else {Before(head, s, |s|)}`next
    modifies if k < |s| then {From(head, s, k + 1)} else {From(head, s, 0)}`prev
    ensures if k < |s| then Ring(head, s[k := n]) else Ring(n, s)
    ensures s == [] ==> o.next == o && o.prev == n
    ensures s != [] ==> o.next == old(o.next) && o.prev == old(o.prev)
  {
    n.next := o.next;
    n.next.prev := n;
    n.prev := o.prev;
    n.prev.next := n;
  }

  method ListReplaceInit<T(0)>(o: ListHead<T>, n: ListHead<T>, ghost head: ListHead<T>, ghost s: seq<ListHead<T>>,
                               ghost k: nat)
    requires Ring(head, s) && n != head && n !in s
    requires k <= |s| && o == From(head, s, k)
    modifies n`next, n`prev, o`next, o`prev
    modifies if k < |s| then {Before(head, s, k)} else {Before(head, s, |s|)}`next
    modifies if k < |s| then {From(head, s, k + 1)} else {From(head, s, 0)}`prev
    ensures if k < |s| then Ring(head, s[k := n]) else Ring(n, s)
    ensures Ring(o, [])
  {
    ListReplace(o, n, head, s, k);
    o.next := o;
    o.prev := o;
  }

  // ------------------------------------------------------------------- moving

  /** The entries `a` of `h` and `b` of `g` share no node. */
  ghost predicate Apart<T(0)>(h: ListHead<T>, a: seq<ListHead<T>>, g: ListHead<T>, b: seq<ListHead<T>>) {
    h != g && h !in b && g !in a && forall x | x in a :: x !in b
  }

  /** `list_move`: the entry at `k` of `src` becomes the first of `dst`, another ring or the same one. */
  method ListMove<T(0)>(e: ListHead<T>, dst: ListHead<T>,
                        ghost src: ListHead<T>, ghost s: seq<ListHead<T>>, ghost k: nat, ghost d: seq<ListHead<T>>)
    requires k < |s| && Ring(src, s) && e == s[k]
    requires if dst == src then d == Without(s, k) else Ring(dst, d) && Apart(src, s, dst, d)
    modifies ({src, dst} + (set x | x in s) + (set x | x in d))`next
    modifies ({src, dst} + (set x | x in s) + (set x | x in d))`prev
    ensures Ring(dst, [e] + d)
    ensures dst != src ==> Ring(src, Without(s, k))
  {
    DeleteShape(s, k);
    assert dst != src ==> e.prev !in d && e.next !in d;
    ListUnlink(e.prev, e.next, src, s, k);
    ListAdd(e, dst, d);
  }

  method ListMoveTail<T(0)>(e: ListHead<T>, dst: ListHead<T>,
                            ghost src: ListHead<T>, ghost s: seq<ListHead<T>>, ghost k: nat, ghost d: seq<ListHead<T>>)
    requires k < |s| && Ring(src, s) && e == s[k]
    requires if dst == src then d == Without(s, k) else Ring(dst, d) && Apart(src, s, dst, d)
    modifies ({src, dst} + (set x | x in s) + (set x | x in d))`next
    modifies ({src, dst} + (set x | x in s) + (set x | x in d))`prev
    ensures Ring(dst, d + [e])
    ensures dst != src ==> Ring(src, Without(s, k))
  {
    DeleteShape(s, k);
    assert dst != src ==> e.prev !in d && e.next !in d;
    ListUnlink(e.prev, e.next, src, s, k);
    ListAddTail(e, dst, d);
  }

  // ------------------------------------------------- loops that empty a list

  lemma WithoutFirst<X>(s: seq<X>)
    requires s != []
    ensures Without(s, 0) == s[1..]
  {
  }

  lemma HoldsRest<T(0)>(s: seq<ListHead<T>>, e: seq<T>)
    requires Holds(s, e) && s != []
    ensures Holds(s[1..], e[1..]) && s[0].entry == e[0]
  {
  }

  lemma NextOf<X>(a: seq<X>, b: seq<X>)
    requires b != []
    ensures a + [b[0]] + b[1..] == a + b
  {
  }

  /** `list_for_each_entry_safe` over a list, deleting every entry it comes to and freeing what it is
      embedded in: `freed` lists what is freed, in order. */
  method ListFreeAll<T(0)>(head: ListHead<T>, ghost s: seq<ListHead<T>>, ghost e: seq<T>) returns (freed: seq<T>)
    requires Ring(head, s) && Holds(s, e)
    modifies ({head} + set x | x in s)`next, ({head} + set x | x in s)`prev
    ensures Ring(head, []) && freed == e
  {
    var pos := head.next;
    var n := pos.next;
    ghost var t, f := s, e;
    freed := [];
    while pos != head
      invariant Ring(head, t) && (forall x | x in t :: x in s)
      invariant Holds(t, f) && freed + f == e
      invariant pos == From(head, t, 0) && n == pos.next
      decreases |t|
    {
      WithoutFirst(t);
      ListDel(pos, head, t, 0);
      HoldsRest(t, f);
      NextOf(freed, f);
      freed := freed + [pos.entry];
      t, f := t[1..], f[1..];
      pos := n;
      n := n.next;
    }
  }

  /** The elements of `s`, one after the other, put in front of `d`. */
  function MovedAll<X>(s: seq<X>, d: seq<X>): seq<X>
    decreases |s|
  {
    if s == [] then d else MovedAll(s[1..], [s[0]] + d)
  }

  lemma {:induction false} HoldsMoved<T(0)>(s: seq<ListHead<T>>, e: seq<T>, d: seq<ListHead<T>>, f: seq<T>)
    requires Holds(s, e) && Holds(d, f)
    ensures Holds(MovedAll(s, d), MovedAll(e, f))
    decreases |s|
  {
    if s != [] {
      HoldsMoved(s[1..], e[1..], [s[0]] + d, [e[0]] + f);
    }
  }

  lemma ShiftApart<T(0)>(src: ListHead<T>, s: seq<ListHead<T>>, dst: ListHead<T>, d: seq<ListHead<T>>)
    requires Apart(src, s, dst, d) && s != [] && Distinct(s) && src !in s && dst !in d
    ensures Without(s, 0) == s[1..] && s[0] !in s[1..]
    ensures Apart(src, s[1..], dst, [s[0]] + d)
  {
  }

  /** `list_del` of the first entry of `src`, then `list_add` of it to `dst`. */
  method ListShift<T(0)>(e: ListHead<T>, src: ListHead<T>, dst: ListHead<T>, ghost s: seq<ListHead<T>>,
                         ghost d: seq<ListHead<T>>)
    requires Ring(src, s) && Ring(dst, d) && Apart(src, s, dst, d) && s != [] && e == s[0]
    modifies ({src, dst} + (set x | x in s) + (set x | x in d))`next
    modifies ({src, dst} + (set x | x in s) + (set x | x in d))`prev
    ensures Ring(src, Without(s, 0)) && Ring(dst, [e] + d)
  {
    DeleteShape(s, 0);
    assert e.prev !in d && e.next !in d;
    ListDel(e, src, s, 0);
    ListAdd(e, dst, d);
  }

  /** `list_for_each_entry_safe` over `src`, moving every entry it comes to to the head of `dst`. */
  method ListMoveAll<T(0)>(src: ListHead<T>, dst: ListHead<T>, ghost s: seq<ListHead<T>>, ghost d: seq<ListHead<T>>)
    requires Ring(src, s) && Ring(dst, d) && Apart(src, s, dst, d)
    modifies ({src, dst} + (set x | x in s) + (set x | x in d))`next
    modifies ({src, dst} + (set x | x in s) + (set x | x in d))`prev
    ensures Ring(src, []) && Ring(dst, MovedAll(s, d))
    ensures forall x | x in MovedAll(s, d) :: x in s || x in d
  {
    var pos: ListHead<T> := src.next;
    var n := pos.next;
    ghost var t, e: seq<ListHead<T>> := s, d;
    while pos != src
      invariant Ring(src, t) && Ring(dst, e) && Apart(src, t, dst, e)
      invariant MovedAll(t, e) == MovedAll(s, d)
      invariant (forall x | x in t :: x in s) && (forall x | x in e :: x in s || x in d)
      invariant pos == From(src, t, 0) && n == pos.next
      decreases |t|
    {
      ShiftApart(src, t, dst, e);
      ListShift(pos, src, dst, t, e);
      t, e := t[1..], [pos] + e;
      pos := n;
      n := n.next;
    }
  }

  // ------------------------------------------------------------------ queries

  predicate ListEmpty<T(0)>(head: ListHead<T>)
    reads head
  {
    head.next == head
  }

  predicate ListEmptyCareful<T(0)>(head: ListHead<T>)
    reads head
  {
    head.next == head && head.next == head.prev
  }

  predicate ListIsSingular<T(0)>(head: ListHead<T>)
    reads head
  {
    !ListEmpty(head) && head.next == head.prev
  }

  predicate ListIsLast<T(0)>(e: ListHead<T>, head: ListHead<T>)
    reads e
  {
    e.next == head
  }

  /** What the four queries answer about a well-formed ring. */
  lemma QueriesAnswer<T(0)>(head: ListHead<T>, s: seq<ListHead<T>>)
    requires Ring(head, s)
    ensures ListEmpty(head) <==> s == []
    ensures ListEmptyCareful(head) <==> s == []
    ensures ListIsSingular(head) <==> |s| == 1
    ensures forall k | 0 <= k < |s| :: ListIsLast(s[k], head) <==> k == |s| - 1
  {
  }

  // ----------------------------------------------------------------- rotation

  function RotatedLeft<X>(s: seq<X>): seq<X> {
    if s == [] then [] else s[1..] + [s[0]]
  }

  function RotatedTimes<X>(s: seq<X>, n: nat): seq<X> {
    if n == 0 then s else RotatedLeft(RotatedTimes(s, n - 1))
  }

  method ListRotateLeft<T(0)>(head: ListHead<T>, ghost s: seq<ListHead<T>>)
    requires Ring(head, s)
    modifies ({head} + set x | x in s)`next, ({head} + set x | x in s)`prev
    ensures Ring(head, RotatedLeft(s))
  {
    QueriesAnswer(head, s);
    if !ListEmpty(head) {
      var first := head.next;
      ListMoveTail(first, head, head, s, 0, Without(s, 0));
      assert Without(s, 0) + [first] == RotatedLeft(s);
    }
  }

  /** `n` rotations of an `n`-element list take every element once round. */
  lemma {:induction false} RotationPeriod<X>(s: seq<X>, n: nat)
    requires n <= |s|
    ensures RotatedTimes(s, n) == s[n..] + s[..n]
    ensures n == |s| ==> RotatedTimes(s, n) == s
  {
    if n > 0 {
      RotationPeriod(s, n - 1);
      var r := s[n - 1..] + s[..n - 1];
      assert r[1..] == s[n..] + s[..n - 1];
      assert s[..n] == s[..n - 1] + [s[n - 1]];
    }
  }

  // ------------------------------------------------------- cutting and joining

  /** `__list_cut_position`: the entries up to and including the one at `k` go to `list`. */
  method ListCut<T(0)>(list: ListHead<T>, head: ListHead<T>, e: ListHead<T>, ghost s: seq<ListHead<T>>, ghost k: nat)
    requires Ring(head, s) && list != head && list !in s
    requires k < |s| && e == s[k]
    modifies list`next, list`prev, head`next, e`next, From(head, s, 0)`prev, From(head, s, k + 1)`prev
    ensures Ring(list, s[..k + 1]) && Ring(head, s[k + 1..])
  {
    var newFirst := e.next;
    list.next := head.next;
    list.next.prev := list;
    list.prev := e;
    e.next := list;
    head.next := newFirst;
    newFirst.prev := head;
    ghost var a, b := s[..k + 1], s[k + 1..];
    assert forall i | 0 <= i < |a| :: a[i] == s[i];
    assert forall i | 0 <= i < |b| :: b[i] == s[i + k + 1];
  }

  /** `list_cut_position`. Nothing happens to an empty list, nor to a list of one entry when `e` is
      a stranger; cutting a list at its own head only initialises `list`. */
  method ListCutPosition<T(0)>(list: ListHead<T>, head: ListHead<T>, e: ListHead<T>, ghost s: seq<ListHead<T>>,
                               ghost k: nat)
    requires Ring(head, s) && list != head && list !in s
    requires |s| > 1 ==> e == head || e in s
    requires e in s ==> k < |s| && e == s[k]
    modifies ({list, head} + set x | x in s)`next, ({list, head} + set x | x in s)`prev
    ensures e in s ==> Ring(list, s[..k + 1]) && Ring(head, s[k + 1..])
    ensures e !in s ==> Ring(head, s)
    ensures e == head && s != [] ==> Ring(list, [])
    ensures s == [] || (e !in s && e != head) ==> list.next == old(list.next) && list.prev == old(list.prev)
  {
    QueriesAnswer(head, s);
    if ListEmpty(head) {
      return;
    }
    if ListIsSingular(head) && head.next != e && head != e {
      return;
    }
    if e == head {
      list.next := list;
      list.prev := list;
    } else {
      ListCut(list, head, e, s, k);
    }
  }

  /** The entries `a` inserted in `s` at position `k`. */
  function Joined<X>(s: seq<X>, k: nat, a: seq<X>): seq<X>
    requires k <= |s|
  {
    s[..k] + a + s[k..]
  }

  lemma JoinShape<X>(s: seq<X>, k: nat, a: seq<X>)
    requires k <= |s| && Distinct(s) && Distinct(a) && forall x | x in a :: x !in s
    ensures var r := Joined(s, k, a);
      && |r| == |s| + |a| && Distinct(r)
      && (forall i | 0 <= i < k :: r[i] == s[i])
      && (forall i | k <= i < k + |a| :: r[i] == a[i - k])
      && (forall i | k + |a| <= i < |r| :: r[i] == s[i - |a|])
  {
    var r := Joined(s, k, a);
    forall i, j | 0 <= i < j < |r| ensures r[i] != r[j] {
      if k <= i < k + |a| {
        assert r[i] in a;
      }
      if k <= j < k + |a| {
        assert r[j] in a;
      }
    }
  }

  /** The links a splice leaves behind make one ring of both lists. */
  lemma JoinedRing<T(0)>(list: ListHead<T>, a: seq<ListHead<T>>, head: ListHead<T>, s: seq<ListHead<T>>, k: nat)
    requires Distinct(s) && head !in s && Distinct(a) && Apart(list, a, head, s) && a != [] && k <= |s|
    requires Before(head, s, k).next == a[0] && From(head, s, k).prev == a[|a| - 1]
    requires k != 0 ==> head.next == s[0]
    requires k != |s| ==> head.prev == s[|s| - 1]
    requires forall i {:trigger a[i].next} | 0 <= i < |a| ::
      a[i].next == if i + 1 < |a| then a[i + 1] else From(head, s, k)
    requires forall i {:trigger a[i].prev} | 0 <= i < |a| :: a[i].prev == if 0 < i then a[i - 1] else Before(head, s, k)
    requires forall i {:trigger s[i].next} | 0 <= i < |s| && i + 1 != k ::
      s[i].next == if i + 1 < |s| then s[i + 1] else head
    requires forall i {:trigger s[i].prev} | 0 <= i < |s| && i != k :: s[i].prev == if 0 < i then s[i - 1] else head
    ensures Ring(head, Joined(s, k, a))
  {
    JoinShape(s, k, a);
  }

  /** `__list_splice`: the entries of the non-empty `list` go between the consecutive `p` and `q`. */
  method ListSpliceBetween<T(0)>(list: ListHead<T>, p: ListHead<T>, q: ListHead<T>, ghost a: seq<ListHead<T>>,
                                 ghost head: ListHead<T>, ghost s: seq<ListHead<T>>, ghost k: nat)
    requires Ring(list, a) && Ring(head, s) && Apart(list, a, head, s) && a != []
    requires k <= |s| && p == Before(head, s, k) && q == From(head, s, k)
    modifies From(list, a, 0)`prev, p`next, Before(list, a, |a|)`next, q`prev
    ensures Ring(head, Joined(s, k, a))
  {
    JoinShape(s, k, a);
    assert p !in a && q !in a && a[0] !in s && a[|a| - 1] !in s;
    var first, last := list.next, list.prev;
    first.prev := p;
    p.next := first;
    last.next := q;
    q.prev := last;
    JoinedRing(list, a, head, s, k);
  }

  /** `list_splice`: the entries of `list` go to the front of `head`; `list` is left stale. */
  method ListSplice<T(0)>(list: ListHead<T>, head: ListHead<T>, ghost a: seq<ListHead<T>>, ghost s: seq<ListHead<T>>)
    requires Ring(list, a) && Ring(head, s) && Apart(list, a, head, s)
    modifies ({list, head} + (set x | x in a) + (set x | x in s))`next
    modifies ({list, head} + (set x | x in a) + (set x | x in s))`prev
    ensures Ring(head, a + s)
    ensures list.next == old(list.next) && list.prev == old(list.prev)
  {
    QueriesAnswer(list, a);
    assert Joined(s, 0, a) == a + s;
    if !ListEmpty(list) {
      ListSpliceBetween(list, head, head.next, a, head, s, 0);
    }
  }

  /** `list_splice_tail`: the entries of `list` go to the back of `head`; `list` is left stale. */
  method ListSpliceTail<T(0)>(list: ListHead<T>, head: ListHead<T>, ghost a: seq<ListHead<T>>,
                              ghost s: seq<ListHead<T>>)
    requires Ring(list, a) && Ring(head, s) && Apart(list, a, head, s)
    modifies ({list, head} + (set x | x in a) + (set x | x in s))`next
    modifies ({list, head} + (set x | x in a) + (set x | x in s))`prev
    ensures Ring(head, s + a)
    ensures list.next == old(list.next) && list.prev == old(list.prev)
  {
    QueriesAnswer(list, a);
    assert Joined(s, |s|, a) == s + a;
    if !ListEmpty(list) {
      ListSpliceBetween(list, head.prev, head, a, head, s, |s|);
    }
  }

  /** `list_splice_init`: as `ListSplice`, and `list` ends empty. */
  method ListSpliceInit<T(0)>(list: ListHead<T>, head: ListHead<T>, ghost a: seq<ListHead<T>>,
                              ghost s: seq<ListHead<T>>)
    requires Ring(list, a) && Ring(head, s) && Apart(list, a, head, s)
    modifies ({list, head} + (set x | x in a) + (set x | x in s))`next
    modifies ({list, head} + (set x | x in a) + (set x | x in s))`prev
    ensures Ring(head, a + s)
    ensures Ring(list, [])
  {
    QueriesAnswer(list, a);
    assert Joined(s, 0, a) == a + s;
    if !ListEmpty(list) {
      ListSpliceBetween(list, head, head.next, a, head, s, 0);
      list.next := list;
      list.prev := list;
    }
  }

  /** `list_splice_tail_init`: as `ListSpliceTail`, and `list` ends empty. */
  method ListSpliceTailInit<T(0)>(list: ListHead<T>, head: ListHead<T>, ghost a: seq<ListHead<T>>,
                                  ghost s: seq<ListHead<T>>)
    requires Ring(list, a) && Ring(head, s) && Apart(list, a, head, s)
    modifies ({list, head} + (set x | x in a) + (set x | x in s))`next
    modifies ({list, head} + (set x | x in a) + (set x | x in s))`prev
    ensures Ring(head, s + a)
    ensures Ring(list, [])
  {
    QueriesAnswer(list, a);
    assert Joined(s, |s|, a) == s + a;
    if !ListEmpty(list) {
      ListSpliceBetween(list, head.prev, head, a, head, s, |s|);
      list.next := list;
      list.prev := list;
    }
  }

  /** Splicing what a cut took off back in front restores the list, node for node. */
  method CutThenSplice<T(0)>(list: ListHead<T>, head: ListHead<T>, e: ListHead<T>, ghost s: seq<ListHead<T>>,
                             ghost k: nat)
    requires Ring(head, s) && list != head && list !in s
    requires e == head || (k < |s| && e == s[k])
    requires e == head ==> Ring(list, [])
    modifies ({list, head} + set x | x in s)`next, ({list, head} + set x | x in s)`prev
    ensures Ring(head, s)
  {
    ListCutPosition(list, head, e, s, k);
    if e == head {
      ListSplice(list, head, [], s);
      assert [] + s == s;
    } else {
      assert Apart(list, s[..k + 1], head, s[k + 1..]);
      ListSplice(list, head, s[..k + 1], s[k + 1..]);
      assert s[..k + 1] + s[k + 1..] == s;
    }
  }
}
