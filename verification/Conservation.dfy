/** Where every task is. */
module Conservation {
  import opened Clock
  import opened Tasks
  import opened Machine
  import opened Shapes
  import opened EmList

  function Ids(ts: seq<Task>): multiset<nat> {
    multiset(Serials(ts))
  }

  /** The tasks the scheduler still has: queued, parked, or in its hands. */
  function Live(s: State): multiset<nat> {
    Ids(s.jobs) + Ids(s.todo) + Ids(Flight(s.pc))
  }

  /** Task `i` is exactly once among the live, the freed and the leaked if it was ever allocated,
      and nowhere otherwise; it is marked alive exactly when it is live. */
  ghost predicate Placed(live: multiset<nat>, freed: multiset<nat>, leaked: multiset<nat>, ledger: seq<Record>,
                         i: nat) {
    && live[i] + freed[i] + leaked[i] == (if i < |ledger| then 1 else 0)
    && (i < |ledger| ==> (ledger[i].fate.Alive? <==> i in live))
  }

  ghost predicate Balanced(live: multiset<nat>, freed: multiset<nat>, leaked: multiset<nat>, ledger: seq<Record>) {
    forall i: nat :: Placed(live, freed, leaked, ledger, i)
  }

  /** Every task ever allocated is in exactly one place, once: so none is in two queues, none is
      queued after being freed, and none is freed twice. */
  ghost predicate Conserved(s: State) {
    Balanced(Live(s), multiset(s.freed), multiset(s.leaked), s.ledger)
  }

  lemma IdsAdd(a: seq<Task>, b: seq<Task>)
    ensures Ids(a + b) == Ids(a) + Ids(b)
  {
    assert Serials(a + b) == Serials(a) + Serials(b);
  }

  lemma IdsOne(t: Task)
    ensures Ids([t]) == multiset{t.serial}
  {
  }

  lemma IdsCons(t: Task, ts: seq<Task>)
    ensures Ids([t] + ts) == multiset{t.serial} + Ids(ts)
  {
    IdsAdd([t], ts);
    IdsOne(t);
  }

  /** The two reversals of a pass: what `todo` holds, back to front, goes in front of `jobs`. */
  lemma {:induction false} MovedBackIs(todo: seq<Task>, jobs: seq<Task>)
    ensures MovedAll(todo, jobs) == Reverse(todo) + jobs
    decreases |todo|
  {
    if todo == [] {
      assert Reverse(todo) + jobs == jobs;
    } else {
      MovedBackIs(todo[1..], [todo[0]] + jobs);
      assert Reverse(todo[1..]) + ([todo[0]] + jobs) == Reverse(todo) + jobs;
    }
  }

  lemma {:induction false} ReverseIds(ts: seq<Task>)
    ensures Ids(Reverse(ts)) == Ids(ts)
  {
    if ts != [] {
      ReverseIds(ts[1..]);
      IdsAdd(Reverse(ts[1..]), [ts[0]]);
      IdsAdd([ts[0]], ts[1..]);
      assert ts == [ts[0]] + ts[1..];
    }
  }

  // ---------------------------------------------------------- the three moves

  lemma Born(live: multiset<nat>, freed: multiset<nat>, leaked: multiset<nat>, l: seq<Record>, r: Record)
    requires Balanced(live, freed, leaked, l)
    ensures r.fate.Alive? ==> Balanced(live + multiset{|l|}, freed, leaked, l + [r])
    ensures !r.fate.Alive? ==> Balanced(live, freed + multiset{|l|}, leaked, l + [r])
    ensures !r.fate.Alive? ==> Balanced(live, freed, leaked + multiset{|l|}, l + [r])
  {
    forall i: nat
      ensures r.fate.Alive? ==> Placed(live + multiset{|l|}, freed, leaked, l + [r], i)
      ensures !r.fate.Alive? ==> Placed(live, freed + multiset{|l|}, leaked, l + [r], i)
      ensures !r.fate.Alive? ==> Placed(live, freed, leaked + multiset{|l|}, l + [r], i)
    {
      assert Placed(live, freed, leaked, l, i);
    }
  }

  lemma Freed(live: multiset<nat>, gone: seq<nat>, freed: multiset<nat>, leaked: multiset<nat>, l: seq<Record>, f: Fate)
    requires Balanced(live + multiset(gone), freed, leaked, l) && !f.Alive?
    ensures Balanced(live, freed + multiset(gone), leaked, Marked(l, gone, f))
  {
    var m := Marked(l, gone, f);
    forall i: nat ensures Placed(live, freed + multiset(gone), leaked, m, i) {
      assert Placed(live + multiset(gone), freed, leaked, l, i);
      assert i in gone <==> i in multiset(gone);
    }
  }

  /** What does not touch the queues, the graveyard or the fates keeps the balance. */
  lemma SameConserves(s: State, r: State)
    requires Conserved(s) && Live(r) == Live(s)
    requires r.freed == s.freed && r.leaked == s.leaked && |r.ledger| == |s.ledger|
    requires forall i | 0 <= i < |s.ledger| :: r.ledger[i].fate == s.ledger[i].fate
    ensures Conserved(r)
  {
    forall i: nat ensures Placed(Live(r), multiset(r.freed), multiset(r.leaked), r.ledger, i) {
      assert Placed(Live(s), multiset(s.freed), multiset(s.leaked), s.ledger, i);
    }
  }

  lemma AddConserves(s: State, t: Task, owned: bool)
    requires Conserved(s)
    ensures Conserved(AddTask(s, t, owned))
  {
    var n := |s.ledger|;
    var t' := t.(serial := n);
    Born(Live(s), multiset(s.freed), multiset(s.leaked), s.ledger, Record(t', [], if s.stop then Refused else Alive));
    IdsAdd(s.jobs, [t']);
    IdsOne(t');
    assert Ids(s.jobs + [t']) + Ids(s.todo) + Ids(Flight(s.pc)) == Live(s) + multiset{n};
  }

  lemma FreeConserves(s: State, r: State, ts: seq<Task>, f: Fate)
    requires Conserved(s) && !f.Alive?
    requires Live(s) == Live(r) + Ids(ts)
    requires r.freed == s.freed && r.leaked == s.leaked && r.ledger == s.ledger
    ensures Conserved(FreeAll(r, ts, f))
  {
    Freed(Live(r), Serials(ts), multiset(r.freed), multiset(r.leaked), r.ledger, f);
  }

  // ------------------------------------------ what each critical section moves

  lemma ParkMoves(s: State, t: Task, u: Task, log: Pass)
    requires Flight(s.pc) == [t] && u.serial == t.serial
    ensures Live(s.(todo := [u] + s.todo, pc := Pop, pass := log)) == Live(s)
  {
    IdsOne(t);
    IdsCons(u, s.todo);
  }

  lemma DropMoves(s: State, t: Task)
    requires Flight(s.pc) == [t]
    ensures Live(s) == Ids([t] + s.todo + s.jobs)
  {
    IdsAdd([t] + s.todo, s.jobs);
    IdsAdd([t], s.todo);
  }

  lemma DrainMoves(s: State)
    requires Flight(s.pc) == []
    ensures Live(s) == Ids(s.todo + s.jobs)
  {
    IdsAdd(s.todo, s.jobs);
  }

  lemma PopMoves(s: State)
    requires Flight(s.pc) == []
    ensures Live(Popped(s)) == Live(s)
  {
    if s.jobs != [] {
      IdsCons(s.jobs[0], s.jobs[1..]);
      IdsOne(s.jobs[0]);
      assert s.jobs == [s.jobs[0]] + s.jobs[1..];
    }
  }

  lemma BackMoves(s: State)
    requires Flight(s.pc) == []
    ensures Live(PassEnded(s)) == Live(s)
  {
    MovedBackIs(s.todo, s.jobs);
    IdsAdd(Reverse(s.todo), s.jobs);
    ReverseIds(s.todo);
  }

  // -------------------------------------------------------------------- steps

  lemma EmptiedLive(s: State, pc: Pc)
    requires Flight(pc) == []
    ensures Live(s.(todo := [], jobs := [], hellos := 0, pc := pc)) == multiset{}
  {
  }

  lemma DumpConserves(s: State, t: Task)
    requires Conserved(s) && Flight(s.pc) == [t]
    ensures Conserved(Dumped(s, t))
  {
    DropMoves(s, t);
    EmptiedLive(s, Pc.Flush);
    FreeConserves(s, s.(todo := [], jobs := [], hellos := 0, pc := Pc.Flush), [t] + s.todo + s.jobs, Dropped);
  }

  lemma DrainConserves(s: State)
    requires Conserved(s) && Flight(s.pc) == []
    ensures Conserved(Drained(s))
  {
    DrainMoves(s);
    EmptiedLive(s, Exited);
    FreeConserves(s, s.(todo := [], jobs := [], hellos := 0, pc := Exited), s.todo + s.jobs, Dropped);
  }

  lemma DoneConserves(s: State, t: Task, log: Pass)
    requires Conserved(s) && Flight(s.pc) == [t]
    ensures Conserved(FreeAll(s.(pc := Pop, pass := log), [t], Done))
  {
    var r := s.(pc := Pop, pass := log);
    assert Live(s) == Live(r) + Ids([t]);
    FreeConserves(s, r, [t], Done);
  }

  lemma SettleConserves(s: State, t: Task, now: Timespec, op: Outcome)
    requires Conserved(s) && Flight(s.pc) == [t]
    ensures Conserved(Settled(s, t, now, op))
  {
    var log := s.pass.(exams := s.pass.exams + [Exam(t, now, op)]);
    match op
    case NotElapsed => ParkMoves(s, t, t, log);
    case Reschedule => ParkMoves(s, t, Restamped(t, now), log);
    case Consumed => DoneConserves(s, t, log);
    case NetError => DumpConserves(s, t);
  }

  lemma TurnConserves(s: State, a: Action)
    requires Conserved(s) && MovesNothing(a)
    ensures Conserved(SchedNext(s, a))
  {
    TurnShape(s, a);
    var s' := SchedNext(s, a);
    SameConserves(s, s');
  }

  lemma PopConserves(s: State)
    requires Conserved(s)
    ensures Conserved(SchedNext(s, PopJob))
  {
    if s.pc.Pop? {
      PopMoves(s);
    }
  }

  lemma BackConserves(s: State)
    requires Conserved(s)
    ensures Conserved(SchedNext(s, MoveBack))
  {
    if s.pc.Back? {
      BackMoves(s);
    }
  }

  lemma FinalIs(s: State, a: Action)
    requires a.FinalDrain?
    ensures SchedNext(s, a) == if s.pc.Drain? then Drained(s) else s
  {
  }

  lemma FinalConserves(s: State, a: Action)
    requires Conserved(s) && a.FinalDrain?
    ensures Conserved(SchedNext(s, a))
  {
    FinalIs(s, a);
    if s.pc.Drain? {
      DrainConserves(s);
    }
  }

  lemma JobConserves(s: State, a: Action)
    requires Conserved(s) && a.SettleJob?
    ensures Conserved(SchedNext(s, a))
  {
    if s.pc.Settle? {
      SettleConserves(s, s.pc.task, s.pc.now, s.pc.op);
    }
  }

  /** Every step outside the scheduler thread adds at most one task. */
  lemma OtherStep(s: State, a: Action)
    requires !BySched(a)
    ensures var s' := Next(s, a);
      || (s'.jobs, s'.todo, s'.pc, s'.freed, s'.leaked, s'.ledger, s'.pass, s'.stop || s.stop)
         == (s.jobs, s.todo, s.pc, s.freed, s.leaked, s.ledger, s.pass, s'.stop)
      || (exists t: Task, owned: bool :: var r := AddTask(s, t, owned);
           (s'.jobs, s'.todo, s'.pc, s'.freed, s'.leaked, s'.ledger, s'.pass, s'.stop)
           == (r.jobs, r.todo, r.pc, r.freed, r.leaked, r.ledger, r.pass, r.stop))
  {
  }

  /** No step of any thread loses, duplicates or frees twice a task. */
  lemma StepConserves(s: State, a: Action)
    requires Conserved(s)
    ensures Conserved(Next(s, a))
  {
    if BySched(a) {
      match a
      case PopJob => PopConserves(s);
      case MoveBack => BackConserves(s);
      case FinalDrain => FinalConserves(s, a);
      case SettleJob => JobConserves(s, a);
      case _ => TurnConserves(s, a);
    } else {
      OtherStep(s, a);
      forall t, owned ensures Conserved(AddTask(s, t, owned)) {
        AddConserves(s, t, owned);
      }
    }
  }
}
