/** What holds in every reachable state, and over every stretch of every run. */
module Runs {
  import opened Clock
  import opened Tasks
  import opened Triggers
  import opened Machine
  import opened Shapes
  import opened Conservation
  import opened Books
  import opened TriggerLife
  import opened Order
  import opened Session
  import opened Losses

  ghost predicate Inv(s: State) {
    && Conserved(s) && BooksKept(s) && TriggersKept(s) && PassOk(s) && HelloOk(s) && SeqOk(s.net)
    && LossesOk(s)
  }

  lemma EmptyConserved(s: State)
    requires s.jobs == [] && s.todo == [] && Flight(s.pc) == [] && s.ledger == [] && s.freed == [] && s.leaked == []
    ensures Conserved(s)
  {
  }

  lemma EmptyBooks(s: State)
    requires s.jobs == [] && s.todo == [] && Flight(s.pc) == [] && s.ledger == [] && Due(s.pc) == 0 && !s.pc.Settle?
    ensures BooksKept(s)
  {
  }

  lemma EmptyTriggers(s: State)
    requires s.minted == [] && s.next == 1 && s.table == [] && s.npc.Idle? && !s.pc.Calling? && s.ledger == []
      && s.calls == []
    ensures TriggersKept(s)
  {
  }

  lemma EmptySession(s: State)
    requires s.jobs == [] && s.todo == [] && s.pc.Top? && s.ledger == [] && s.hellos == 0 && s.npc.Idle?
      && s.net == Net(false, 0, [])
    ensures HelloOk(s) && SeqOk(s.net) && PassOk(s)
  {
  }

  lemma EmptyLosses(s: State)
    requires s.leaked == [] && s.ledger == []
    ensures LossesOk(s)
  {
  }

  lemma StartInv(s: State)
    requires s == Start()
    ensures Inv(s)
  {
    EmptyConserved(s);
    EmptyBooks(s);
    EmptyTriggers(s);
    EmptySession(s);
    EmptyLosses(s);
  }

  lemma HandKnown(s: State)
    requires BooksKept(s)
    ensures forall t | t in Flight(s.pc) :: KnownTask(s.ledger, t)
  {
  }

  lemma StepTriggers(s: State, a: Action)
    requires TriggersKept(s) && BooksKept(s)
    ensures TriggersKept(Next(s, a))
  {
    if BySched(a) {
      HandKnown(s);
      SchedTriggers(s, a);
    } else {
      OtherTriggers(s, a);
    }
  }

  lemma StepLosses(s: State, a: Action)
    requires Conserved(s) && HelloOk(s) && LossesOk(s)
    ensures LossesOk(Next(s, a))
  {
    if !BySched(a) {
      OtherLosses(s, a);
    } else {
      var r := Next(s, a);
      SchedShape(s, a);
      LedgerStep(s, a);
      forall i: nat ensures Lost(r.leaked, r.ledger, i) {
        assert Lost(s.leaked, s.ledger, i);
        assert i < |s.ledger| ==> RecordGrows(s.ledger, r.ledger, i);
      }
    }
  }

  lemma StepInv(s: State, a: Action)
    requires Inv(s)
    ensures Inv(Next(s, a))
  {
    StepConserves(s, a);
    StepBooks(s, a);
    StepTriggers(s, a);
    StepOrder(s, a);
    StepHello(s, a);
    StepSeq(s, a);
    StepLosses(s, a);
  }

  /** Every reachable state keeps every invariant, however the three threads interleave. */
  lemma {:induction false} RunInv(s: State, acts: seq<Action>)
    requires Inv(s)
    ensures Inv(Exec(s, acts))
    decreases |acts|
  {
    if acts != [] {
      RunInv(s, acts[..|acts| - 1]);
      StepInv(Exec(s, acts[..|acts| - 1]), acts[|acts| - 1]);
    }
  }

  // --------------------------------------------------- what no step can undo

  /** What happened to task `i` stays: it remains what it was made as, its runs are only added to,
      and once it is freed, lost or refused nothing happens to it any more. */
  ghost predicate RecordGrows(l: seq<Record>, m: seq<Record>, i: nat)
    requires i < |l| <= |m|
  {
    && m[i].made == l[i].made && l[i].runs <= m[i].runs
    && if l[i].fate.Alive? then !m[i].fate.Refused? else m[i] == l[i]
  }

  ghost predicate LedgerGrows(l: seq<Record>, m: seq<Record>) {
    |l| <= |m| && forall i: nat | i < |l| :: RecordGrows(l, m, i)
  }

  /** No trigger in `table` has id `id`. */
  predicate Absent(table: seq<Trigger>, id: int) {
    forall t | t in table :: t.id != id
  }

  ghost predicate Evolves(s: State, r: State) {
    && LedgerGrows(s.ledger, r.ledger)
    && (s.stop ==> r.stop && forall i: nat | |s.ledger| <= i < |r.ledger| :: r.ledger[i].fate.Refused?)
    && (s.pc.Exited? ==> r.pc.Exited?)
    && s.minted <= r.minted
    && (forall id: int | 1 <= id <= |s.minted| && Absent(s.table, id) :: Absent(r.table, id))
    && s.calls <= r.calls
  }

  lemma EvolvesTrans(s: State, r: State, q: State)
    requires Evolves(s, r) && Evolves(r, q)
    ensures Evolves(s, q)
  {
    forall i: nat | i < |s.ledger| ensures RecordGrows(s.ledger, q.ledger, i) {
      assert RecordGrows(s.ledger, r.ledger, i) && RecordGrows(r.ledger, q.ledger, i);
    }
    if s.stop {
      forall i: nat | |s.ledger| <= i < |q.ledger| ensures q.ledger[i].fate.Refused? {
        if i < |r.ledger| {
          assert RecordGrows(r.ledger, q.ledger, i);
        }
      }
    }
  }

  lemma MarkedGrows(l: seq<Record>, ids: seq<nat>, f: Fate)
    requires !f.Refused? && forall i | i in ids :: i < |l| && l[i].fate.Alive?
    ensures LedgerGrows(l, Marked(l, ids, f))
  {
  }

  /** Tasks in the queues are alive. */
  lemma QueuedAlive(s: State, ts: seq<Task>)
    requires Conserved(s) && forall t | t in ts :: t in s.jobs || t in s.todo || t in Flight(s.pc)
    ensures forall i | i in Serials(ts) :: i < |s.ledger| && s.ledger[i].fate.Alive?
  {
    forall i | i in Serials(ts) ensures i < |s.ledger| && s.ledger[i].fate.Alive? {
      var k :| 0 <= k < |ts| && Serials(ts)[k] == i;
      InLive(s, ts[k]);
      assert Placed(Live(s), multiset(s.freed), multiset(s.leaked), s.ledger, i);
    }
  }

  lemma InLive(s: State, t: Task)
    requires t in s.jobs || t in s.todo || t in Flight(s.pc)
    ensures t.serial in Live(s)
  {
  }

  lemma SettleLedger(s: State, t: Task, now: Timespec, op: Outcome)
    requires Conserved(s) && Flight(s.pc) == [t]
    ensures LedgerGrows(s.ledger, Settled(s, t, now, op).ledger)
  {
    QueuedAlive(s, [t]);
    QueuedAlive(s, [t] + s.todo + s.jobs);
    MarkedGrows(s.ledger, Serials([t]), Done);
    MarkedGrows(s.ledger, Serials([t] + s.todo + s.jobs), Dropped);
  }

  lemma DrainLedger(s: State)
    requires Conserved(s)
    ensures LedgerGrows(s.ledger, Drained(s).ledger)
  {
    QueuedAlive(s, s.todo + s.jobs);
    MarkedGrows(s.ledger, Serials(s.todo + s.jobs), Dropped);
  }

  lemma RunLedger(s: State, t: Task, now: Timespec)
    requires Conserved(s) && Flight(s.pc) == [t]
    ensures LedgerGrows(s.ledger, Judged(s, t, now).ledger)
  {
    HandAlone(s, t);
  }

  /** The steps that write no record. */
  lemma LedgerRest(s: State, a: Action)
    requires BySched(a) && !(a.SettleJob? && s.pc.Settle?)
    requires !(a.FinalDrain? && s.pc.Drain?) && !(a.ReadClock? && s.pc.Judge?)
    ensures Next(s, a).ledger == s.ledger
  {
  }

  lemma LedgerStep(s: State, a: Action)
    requires Conserved(s)
    ensures LedgerGrows(s.ledger, Next(s, a).ledger)
  {
    if a.SettleJob? && s.pc.Settle? {
      SettleLedger(s, s.pc.task, s.pc.now, s.pc.op);
    } else if a.FinalDrain? && s.pc.Drain? {
      DrainLedger(s);
    } else if a.ReadClock? && s.pc.Judge? {
      RunLedger(s, s.pc.task, a.now);
    } else if BySched(a) {
      LedgerRest(s, a);
    } else {
      OtherShape(s, a);
    }
  }

  /** What the other threads do to the table: nothing, a deletion, or a new trigger in front. */
  lemma OtherTable(s: State, a: Action)
    requires !BySched(a)
    ensures var r := Next(s, a).table;
      || r == s.table
      || (exists p: Trigger -> bool :: r == RemoveFirst(s.table, p))
      || (exists g: Trigger :: g.id == s.next && r == [g] + s.table)
  {
  }

  lemma RemoveKeepsAbsent(table: seq<Trigger>, p: Trigger -> bool, id: int)
    requires Absent(table, id)
    ensures Absent(RemoveFirst(table, p), id)
  {
  }

  lemma TableStep(s: State, a: Action, id: int)
    requires id < s.next && Absent(s.table, id)
    ensures Absent(Next(s, a).table, id)
  {
    if BySched(a) {
      SchedShape(s, a);
    } else {
      OtherTable(s, a);
      forall p: Trigger -> bool ensures Absent(RemoveFirst(s.table, p), id) {
        RemoveKeepsAbsent(s.table, p, id);
      }
    }
  }

  lemma StepEvolves(s: State, a: Action)
    requires Inv(s)
    ensures Evolves(s, Next(s, a))
  {
    LedgerStep(s, a);
    if BySched(a) {
      SchedShape(s, a);
    } else {
      OtherShape(s, a);
    }
    forall id: int | 1 <= id <= |s.minted| && Absent(s.table, id) ensures Absent(Next(s, a).table, id) {
      TableStep(s, a, id);
    }
  }

  lemma {:induction false} RunEvolves(s: State, acts: seq<Action>)
    requires Inv(s)
    ensures Evolves(s, Exec(s, acts))
    decreases |acts|
  {
    if acts != [] {
      var b := acts[..|acts| - 1];
      RunEvolves(s, b);
      RunInv(s, b);
      StepEvolves(Exec(s, b), acts[|acts| - 1]);
      EvolvesTrans(s, Exec(s, b), Exec(s, acts));
    }
  }
}
