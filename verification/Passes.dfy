/** What a pass over the queue amounts to, the other threads interfering. */
module Passes {
  import opened Triggers
  import opened Machine
  import opened Shapes
  import opened Conservation
  import opened Order
  import opened Runs
  import opened Theorems
  import opened Turns
  import opened Endings

  /** Turn `k` is in a pass that is over by turn `e`. */
  ghost predicate On(h: nat -> State, k: nat, e: nat) {
    k < e && InPass(h(k).pc) && h(e).pc.Top?
  }

  lemma Onward(h: nat -> State, o: nat -> Tick, k: nat, e: nat)
    requires Follows(h, o) && On(h, k, e)
    ensures Proper(o(k)) && h(k + 1) == Ticked(h(k), o(k))
    ensures InPass(h(k + 1).pc) ==> On(h, k + 1, e)
  {
    assert TurnsAt(h, o, k);
  }

  // ------------------------------------------------------- without a network error


  /** The outcome of a pass that met no network error. */
  ghost predicate Orderly(s: State) {
    var p := s.pass;
    && s.todo == [] && s.jobs == Kept(p.exams) + p.late
    && Examined(p.exams) == p.entry + p.came
    && forall e | e in p.exams :: Fair(e)
  }

  lemma PassOrderly(m: State, t: Tick)
    requires Inv(m) && m.pc.Back? && Proper(t)
    ensures Orderly(Ticked(m, t))
  {
    var r := Exec(m, t.others);
    TickLeaves(m, t, r);
    RunInv(m, t.others);
    PassKeepsOrder(r);
  }

  lemma HistoryOrderly(h: nat -> State, o: nat -> Tick, start: nat, k: nat)
    requires Follows(h, o) && Inv(h(start)) && start <= k && h(k).pc.Back?
    ensures Orderly(h(k + 1))
  {
    HistoryInv(h, o, start, k);
    assert TurnsAt(h, o, k);
    PassOrderly(h(k), o(k));
  }

  lemma ReachedOrderly(h: nat -> State, o: nat -> Tick, start: nat, k: nat)
    requires Follows(h, o) && Reachable(h(start)) && start <= k && h(k).pc.Back?
    ensures Orderly(h(k + 1))
  {
    ReachableInv(h(start));
    HistoryOrderly(h, o, start, k);
  }

  lemma EntryStep(s: State, a: Action)
    requires InPass(s.pc)
    ensures Next(s, a).pass.entry == s.pass.entry
  {
    if BySched(a) {
      SchedShape(s, a);
    } else {
      OtherShape(s, a);
    }
  }

  lemma {:induction false} EntryOthers(s: State, acts: seq<Action>)
    requires InPass(s.pc) && forall a | a in acts :: !BySched(a)
    ensures Exec(s, acts).pass.entry == s.pass.entry
    decreases |acts|
  {
    if acts != [] {
      var b := acts[..|acts| - 1];
      assert acts == b + [acts[|acts| - 1]];
      OthersMove(s, b);
      EntryOthers(s, b);
      EntryStep(Exec(s, b), acts[|acts| - 1]);
    }
  }

  lemma EntryCall(s: State, t: Tick)
    requires InPass(s.pc) && CallsOut(s.pc, t)
    ensures InPass(SchedNext(s, Chosen(s.pc, t)).pc)
  {
  }

  lemma EntryTick(s: State, t: Tick)
    requires InPass(s.pc) && Proper(t)
    ensures Ticked(s, t).pass.entry == s.pass.entry
  {
    var r := Exec(s, t.others);
    var a := Chosen(r.pc, t);
    TickFrom(s, t, r);
    EntryOthers(s, t.others);
    ChosenBySched(r.pc, t);
    EntryStep(r, a);
    if CallsOut(r.pc, t) {
      EntryCall(r, t);
      EntryOthers(SchedNext(r, a), t.inside);
    }
  }

  /** A pass goes on remembering the queue it started with. */
  lemma {:induction false} EntryStays(h: nat -> State, o: nat -> Tick, start: nat, k: nat, e: nat)
    requires Follows(h, o) && EndsAt(h, start, e) && start <= k <= e
    ensures h(k).pass.entry == h(start).pass.entry
    decreases k
  {
    if start < k {
      var j := k - 1;
      EntryStays(h, o, start, j, e);
      assert TurnsAt(h, o, j);
      EntryTick(h(j), o(j));
    }
  }

  // ---------------------------------------------------------- with a network error

  /** No task queued is older than number `b`. */
  ghost predicate JobsSince(s: State, b: nat) {
    b <= |s.ledger| && forall t | t in s.jobs :: t.serial >= b
  }

  /** No trigger in the table is older than id `c`. */
  ghost predicate TableSince(s: State, c: int) {
    c <= s.next && forall g | g in s.table :: g.id >= c
  }

  lemma JobsStep(s: State, a: Action, b: nat)
    requires !BySched(a) && JobsSince(s, b)
    ensures JobsSince(Next(s, a), b)
  {
    OtherStep(s, a);
  }

  lemma TableStays(s: State, a: Action, c: int)
    requires !BySched(a) && TableSince(s, c)
    ensures TableSince(Next(s, a), c)
  {
    OtherTable(s, a);
    OtherShape(s, a);
    forall p: Trigger -> bool, g | g in RemoveFirst(s.table, p) ensures g in s.table {
    }
  }

  lemma {:induction false} OthersSince(s: State, acts: seq<Action>, b: nat, c: int)
    requires forall a | a in acts :: !BySched(a)
    ensures JobsSince(s, b) ==> JobsSince(Exec(s, acts), b)
    ensures TableSince(s, c) ==> TableSince(Exec(s, acts), c)
    decreases |acts|
  {
    if acts != [] {
      var d, a := acts[..|acts| - 1], acts[|acts| - 1];
      assert acts == d + [a];
      OthersSince(s, d, b, c);
      if JobsSince(s, b) {
        JobsStep(Exec(s, d), a, b);
      }
      if TableSince(s, c) {
        TableStays(Exec(s, d), a, c);
      }
    }
  }

  /** The turn that settles the error: the queues are emptied. */
  lemma DumpTurn(h: nat -> State, o: nat -> Tick, k: nat)
    requires Follows(h, o) && h(k).pc.Settle? && h(k).pc.op.NetError?
    ensures var q := h(k + 1);
      q.pc.Flush? && q.jobs == [] && q.todo == [] && q.alerts == h(k).alerts && JobsSince(q, |q.ledger|)
  {
    assert TurnsAt(h, o, k);
    OthersMove(h(k), o(k).others);
    TickSettles(h(k), o(k), Exec(h(k), o(k).others));
  }

  lemma FlushTurn(h: nat -> State, o: nat -> Tick, k: nat, b: nat)
    requires Follows(h, o) && h(k).pc.Flush? && JobsSince(h(k), b)
    ensures var q := h(k + 1);
      && q.pc.Alert? && q.todo == h(k).todo && q.alerts == h(k).alerts
      && JobsSince(q, b) && q.table == [] && TableSince(q, q.next)
  {
    assert TurnsAt(h, o, k);
    OthersMove(h(k), o(k).others);
    OthersSince(h(k), o(k).others, b, 0);
    TickLeaves(h(k), o(k), Exec(h(k), o(k).others));
  }

  lemma AlertTurn(h: nat -> State, o: nat -> Tick, k: nat, b: nat, c: int)
    requires Follows(h, o) && h(k).pc.Alert? && JobsSince(h(k), b) && TableSince(h(k), c)
    ensures var q := h(k + 1);
      && q.pc.Down? && q.todo == h(k).todo && q.alerts == h(k).alerts + (if o(k).provided then 1 else 0)
      && JobsSince(q, b) && TableSince(q, c)
  {
    assert TurnsAt(h, o, k);
    var r := Exec(h(k), o(k).others);
    var p := r.(alerts := if o(k).provided then r.alerts + 1 else r.alerts, pc := Down);
    OthersMove(h(k), o(k).others);
    OthersSince(h(k), o(k).others, b, c);
    TickLeaves(h(k), o(k), r);
    OthersMove(p, o(k).inside);
    OthersSince(p, o(k).inside, b, c);
  }

  lemma DownTurn(h: nat -> State, o: nat -> Tick, k: nat, b: nat, c: int)
    requires Follows(h, o) && h(k).pc.Down? && JobsSince(h(k), b) && TableSince(h(k), c)
    ensures var q := h(k + 1);
      && q.pc.Top? && q.todo == h(k).todo && q.alerts == h(k).alerts && q.net == Net(false, 0, [])
      && JobsSince(q, b) && TableSince(q, c)
  {
    assert TurnsAt(h, o, k);
    OthersMove(h(k), o(k).others);
    OthersSince(h(k), o(k).others, b, c);
    TickLeaves(h(k), o(k), Exec(h(k), o(k).others));
  }

  /** No other thread interferes, and the wrapper makes no API call. */
  predicate Alone(t: Tick) {
    t.others == [] && t.inside == []
  }

  lemma AloneLeaves(h: nat -> State, o: nat -> Tick, k: nat)
    requires Follows(h, o) && Alone(o(k)) && (h(k).pc.Flush? || h(k).pc.Alert? || h(k).pc.Down?)
    ensures h(k + 1).jobs == h(k).jobs && (!h(k).pc.Flush? ==> h(k + 1).table == h(k).table)
  {
    assert TurnsAt(h, o, k);
    assert Exec(h(k), o(k).others) == h(k);
    TickLeaves(h(k), o(k), h(k));
  }

  /** Turn `k` settles a network error. Four turns later the connection is marked down, the number of the
      next message is 0, and the wrapper was told once, if it wants to hear. Whatever the others do
      meanwhile, no task is queued but those added after the dump, and no trigger filed but those armed
      after the flush: none at all if the others keep still. */
  ghost predicate ClearsAt(h: nat -> State, o: nat -> Tick, k: nat) {
    var q := h(k + 4);
    && h(k).pc.Settle? && h(k).pc.op.NetError?
    && q.todo == [] && q.net == Net(false, 0, [])
    && q.alerts == h(k).alerts + (if o(k + 2).provided then 1 else 0)
    && JobsSince(q, |h(k + 1).ledger|) && TableSince(q, h(k + 2).next)
    && (Alone(o(k + 1)) && Alone(o(k + 2)) && Alone(o(k + 3)) ==> q.jobs == [] && q.table == [])
  }

  lemma ErrorClears(h: nat -> State, o: nat -> Tick, k: nat)
    requires Follows(h, o) && h(k).pc.Settle? && h(k).pc.op.NetError?
    ensures ClearsAt(h, o, k)
  {
    var b, c := |h(k + 1).ledger|, h(k + 2).next;
    DumpTurn(h, o, k);
    FlushTurn(h, o, k + 1, b);
    AlertTurn(h, o, k + 2, b, c);
    DownTurn(h, o, k + 3, b, c);
    if Alone(o(k + 1)) && Alone(o(k + 2)) && Alone(o(k + 3)) {
      AloneLeaves(h, o, k + 1);
      AloneLeaves(h, o, k + 2);
      AloneLeaves(h, o, k + 3);
    }
  }

  /** What a pass leaves that began at turn `start` and ended at turn `k`: without a network error the
      tasks retained, in the order in which they were queued at the start or came later; for the rest
      see `Orderly` and, after a network error, `ClearsAt`. */
  ghost predicate PassDone(h: nat -> State, o: nat -> Tick, start: nat, k: nat, down: bool) {
    if down then 4 <= k && ClearsAt(h, o, k - 4) else Orderly(h(k)) && h(k).pass.entry == h(start).jobs
  }

  lemma PassAmounts(h: nat -> State, o: nat -> Tick, start: nat, k: nat, e: nat, down: bool)
    requires Follows(h, o) && Reachable(h(start)) && Begun(h(start)) && EndsAt(h, start, e) && start < k <= e
    requires if down then 3 < k && ErrorBefore(h, k - 3) else h(k - 1).pc.Back?
    ensures PassDone(h, o, start, k, down)
  {
    if down {
      ErrorClears(h, o, k - 4);
    } else {
      ReachedOrderly(h, o, start, k - 1);
      EntryStays(h, o, start, k, e);
    }
  }

  /** Once `sched_loop` has ended both queues are empty. */
  lemma ExitedEmpty(h: nat -> State, o: nat -> Tick, k: nat)
    requires Follows(h, o) && Reachable(h(0)) && h(k).pc.Exited?
    ensures h(k).jobs == [] && h(k).todo == [] && h(k).stop
  {
    ReachedOn(h, o, 0, k);
    ReachableInv(h(k));
  }
}
