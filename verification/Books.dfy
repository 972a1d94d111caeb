/** How often each task runs, and when: credits, and the drift of periodic tasks. */
module Books {
  import opened Clock
  import opened Tasks
  import opened Machine
  import opened Shapes
  import opened Conservation

  /** What `issued` holds after `k` runs: each reschedule stamps the time of the run. */
  function Stamp(made: Task, runs: seq<Timespec>, k: nat): Timespec
    requires k <= |runs|
  {
    if k == 0 then made.issued else runs[k - 1]
  }

  /** Every run waited for the interval, as the scheduler measures it, since the stamp before it. */
  ghost predicate Spaced(made: Task, runs: seq<Timespec>) {
    forall k | 0 <= k < |runs| :: Elapsed(Stamp(made, runs, k), runs[k], made.elapse)
  }

  /** The history of one task adds up: a task created with `resch` credits runs at most `resch + 1`
      times, and is released for having run just when it has run that often. */
  ghost predicate Accounted(r: Record) {
    && Spaced(r.made, r.runs)
    && (r.made.resch >= 0 ==> |r.runs| <= r.made.resch + 1)
    && (r.fate.Done? ==> r.made.resch >= 0 && |r.runs| == r.made.resch + 1)
    && (r.fate.Refused? ==> r.runs == [])
  }

  /** `t` is what its history says it is, when `due` of its runs (0 or 1) are still to be booked. */
  predicate Booked(l: seq<Record>, t: Task, due: nat) {
    t.serial < |l| &&
    var r := l[t.serial];
    && due <= |r.runs|
    && t == r.made.(issued := t.issued, resch := t.resch)
    && t.issued == Stamp(r.made, r.runs, |r.runs| - due)
    && t.resch == (if r.made.resch < 0 then r.made.resch else r.made.resch - (|r.runs| - due))
    && (r.made.resch >= 0 ==> t.resch >= 0)
  }

  /** Whether the task in hand has run in this turn. */
  function Due(pc: Pc): nat {
    if pc.Perform? || pc.Calling? || (pc.Settle? && pc.op != NotElapsed) then 1 else 0
  }

  /** What the scheduler thread knows about the task in hand. */
  predicate Handled(l: seq<Record>, pc: Pc) {
    && (forall t | t in Flight(pc) :: Booked(l, t, Due(pc)))
    && (Due(pc) == 1 ==>
         var t := Flight(pc)[0];
         t.serial < |l| && |l[t.serial].runs| > 0 && l[t.serial].runs[|l[t.serial].runs| - 1] == pc.now)
    && (pc.Settle? && pc.op == NotElapsed ==> !Elapsed(pc.task.issued, pc.now, pc.task.elapse))
    && (pc.Settle? && pc.op == Reschedule ==> pc.task.resch != 0)
    && (pc.Settle? && pc.op == Consumed ==> pc.task.resch == 0)
  }

  ghost predicate Entered(l: seq<Record>, q: seq<Task>) {
    forall k | 0 <= k < |q| :: Booked(l, q[k], 0)
  }

  ghost predicate AllAccounted(l: seq<Record>) {
    forall i | 0 <= i < |l| :: l[i].made.serial == i && Accounted(l[i])
  }

  ghost predicate BooksKept(s: State) {
    && AllAccounted(s.ledger)
    && Entered(s.ledger, s.jobs)
    && Entered(s.ledger, s.todo)
    && Handled(s.ledger, s.pc)
  }

  /** Run number k + 1 of a periodic task comes strictly more than (k + 1) * (elapse - 1) milliseconds
      after its first stamp, whatever the clock did in between. */
  lemma {:induction false} Drift(made: Task, runs: seq<Timespec>, k: nat)
    requires Spaced(made, runs) && k < |runs|
    ensures NsBetween(made.issued, runs[k]) > (k + 1) * ((made.elapse - 1) * NS_PER_MS)
  {
    ElapsedExactly(Stamp(made, runs, k), runs[k], made.elapse);
    if k > 0 {
      Drift(made, runs, k - 1);
      NsAdd(made.issued, runs[k - 1], runs[k]);
    }
  }

  // ------------------------------------------------------------------- pieces

  /** `m` extends `l` without touching what was made or when it ran. */
  ghost predicate Extends(l: seq<Record>, m: seq<Record>) {
    |l| <= |m| && forall i | 0 <= i < |l| :: m[i].made == l[i].made && m[i].runs == l[i].runs
  }

  lemma EnteredExtends(l: seq<Record>, m: seq<Record>, q: seq<Task>)
    requires Extends(l, m) && Entered(l, q)
    ensures Entered(m, q)
  {
  }

  lemma MarkedAccounted(l: seq<Record>, ids: seq<nat>, f: Fate)
    requires AllAccounted(l) && (f.Dropped? || f.Done?)
    requires f.Done? ==>
      forall i | 0 <= i < |l| && i in ids :: l[i].made.resch >= 0 && |l[i].runs| == l[i].made.resch + 1
    ensures AllAccounted(Marked(l, ids, f)) && Extends(l, Marked(l, ids, f))
  {
  }

  /** Live tasks are distinct: what happens to the task in hand is no other task's business. */
  lemma HandAlone(s: State, t: Task)
    requires Conserved(s) && Flight(s.pc) == [t]
    ensures t.serial < |s.ledger| && s.ledger[t.serial].fate.Alive?
    ensures forall k | 0 <= k < |s.jobs| :: s.jobs[k].serial != t.serial
    ensures forall k | 0 <= k < |s.todo| :: s.todo[k].serial != t.serial
  {
    assert Placed(Live(s), multiset(s.freed), multiset(s.leaked), s.ledger, t.serial);
    IdsOne(t);
    forall k | 0 <= k < |s.jobs| ensures s.jobs[k].serial != t.serial {
      assert Serials(s.jobs)[k] in Ids(s.jobs);
    }
    forall k | 0 <= k < |s.todo| ensures s.todo[k].serial != t.serial {
      assert Serials(s.todo)[k] in Ids(s.todo);
    }
  }

  // -------------------------------------------------------------------- steps

  lemma HandledExtends(l: seq<Record>, m: seq<Record>, pc: Pc)
    requires Extends(l, m) && Handled(l, pc)
    ensures Handled(m, pc)
  {
    forall t | t in Flight(pc) ensures Booked(m, t, Due(pc)) {
      assert Booked(l, t, Due(pc));
    }
  }

  lemma AddBooks(s: State, t: Task, owned: bool)
    requires BooksKept(s)
    ensures BooksKept(AddTask(s, t, owned))
  {
    var u := t.(serial := |s.ledger|);
    var l := s.ledger + [Record(u, [], if s.stop then Refused else Alive)];
    AddedShape(s, t, owned);
    AppendBooks(s.ledger, l[|s.ledger|]);
    EnteredExtends(s.ledger, l, s.jobs);
    EnteredExtends(s.ledger, l, s.todo);
    HandledExtends(s.ledger, l, s.pc);
    assert u == u.(issued := u.issued, resch := u.resch) && Booked(l, u, 0);
  }

  lemma AppendBooks(l: seq<Record>, r: Record)
    requires AllAccounted(l) && r.made.serial == |l| && r.runs == [] && !r.fate.Done?
    ensures AllAccounted(l + [r]) && Extends(l, l + [r])
  {
  }

  lemma RanOne(r: Record, now: Timespec)
    requires Accounted(r) && r.fate.Alive? && Elapsed(Stamp(r.made, r.runs, |r.runs|), now, r.made.elapse)
    requires r.made.resch >= 0 ==> |r.runs| <= r.made.resch
    ensures Accounted(r.(runs := r.runs + [now]))
  {
    var r' := r.(runs := r.runs + [now]);
    forall k | 0 <= k < |r'.runs| ensures Elapsed(Stamp(r'.made, r'.runs, k), r'.runs[k], r'.made.elapse) {
      if k < |r.runs| {
        assert Elapsed(Stamp(r.made, r.runs, k), r.runs[k], r.made.elapse);
      }
    }
  }

  /** One more run, later than the interval after the last stamp and within the credits. */
  lemma RanAccounted(l: seq<Record>, t: Task, now: Timespec)
    requires AllAccounted(l) && Booked(l, t, 0) && l[t.serial].fate.Alive?
    requires Elapsed(t.issued, now, t.elapse)
    ensures AllAccounted(Ran(l, t.serial, now))
  {
    var m := Ran(l, t.serial, now);
    RanOne(l[t.serial], now);
    forall i | 0 <= i < |m| ensures m[i].made.serial == i && Accounted(m[i]) {
      assert i != t.serial ==> m[i] == l[i];
    }
  }

  lemma RanBooked(l: seq<Record>, t: Task, now: Timespec)
    requires Booked(l, t, 0)
    ensures Booked(Ran(l, t.serial, now), t, 1)
  {
  }

  lemma RanEntered(l: seq<Record>, serial: nat, now: Timespec, q: seq<Task>)
    requires Entered(l, q) && serial < |l| && forall k | 0 <= k < |q| :: q[k].serial != serial
    ensures Entered(Ran(l, serial, now), q)
  {
  }

  lemma RunBooks(s: State, t: Task, now: Timespec)
    requires BooksKept(s) && Conserved(s) && s.pc == Judge(t)
    ensures BooksKept(Judged(s, t, now))
  {
    HandAlone(s, t);
    assert Booked(s.ledger, t, 0);
    if Elapsed(t.issued, now, t.elapse) {
      RanAccounted(s.ledger, t, now);
      RanBooked(s.ledger, t, now);
      RanEntered(s.ledger, t.serial, now, s.jobs);
      RanEntered(s.ledger, t.serial, now, s.todo);
    }
  }

  lemma ParkBooks(s: State, t: Task, now: Timespec, op: Outcome)
    requires BooksKept(s) && s.pc == Settle(t, now, op) && (op.NotElapsed? || op.Reschedule?)
    ensures BooksKept(Settled(s, t, now, op))
  {
    assert Booked(s.ledger, t, Due(s.pc));
    if op.Reschedule? {
      assert Booked(s.ledger, Restamped(t, now), 0);
    }
  }

  lemma ConsumeBooks(s: State, t: Task, now: Timespec)
    requires BooksKept(s) && s.pc == Settle(t, now, Consumed)
    ensures BooksKept(Settled(s, t, now, Consumed))
  {
    assert Booked(s.ledger, t, Due(s.pc));
    var l := Marked(s.ledger, Serials([t]), Done);
    MarkedAccounted(s.ledger, Serials([t]), Done);
    EnteredExtends(s.ledger, l, s.jobs);
    EnteredExtends(s.ledger, l, s.todo);
  }

  lemma SettleBooks(s: State, t: Task, now: Timespec, op: Outcome)
    requires BooksKept(s) && s.pc == Settle(t, now, op)
    ensures BooksKept(Settled(s, t, now, op))
  {
    match op
    case NotElapsed => ParkBooks(s, t, now, op);
    case Reschedule => ParkBooks(s, t, now, op);
    case Consumed => ConsumeBooks(s, t, now);
    case NetError => MarkedAccounted(s.ledger, Serials([t] + s.todo + s.jobs), Dropped);
  }

  lemma BackBooks(s: State)
    requires BooksKept(s) && Flight(s.pc) == []
    ensures BooksKept(PassEnded(s)) && BooksKept(Popped(s))
  {
    MovedBackIs(s.todo, s.jobs);
    ReverseEntered(s.ledger, s.todo);
  }

  lemma {:induction false} ReverseEntered(l: seq<Record>, q: seq<Task>)
    requires Entered(l, q)
    ensures Entered(l, Reverse(q))
  {
    if q != [] {
      assert Booked(l, q[0], 0);
      ReverseEntered(l, q[1..]);
    }
  }

  lemma DrainBooks(s: State)
    requires BooksKept(s)
    ensures BooksKept(Drained(s))
  {
  }

  /** How performing a task ends: with the outcome its credits call for, at the time it started. */
  lemma HandShape(s: State, a: Action)
    requires a.Transmit? || a.Plain? || a.Lookup? || a.Callback?
    ensures var s' := SchedNext(s, a);
      && s'.ledger == s.ledger && s'.jobs == s.jobs && s'.todo == s.todo
      && (s'.pc == s.pc
          || ((s.pc.Perform? || s.pc.Calling?) && (s'.pc.Calling? || s'.pc.Settle?)
              && s'.pc.task == s.pc.task && s'.pc.now == s.pc.now
              && (s'.pc.Settle? ==> s'.pc.op == NetError || s'.pc.op == Finish(s.pc.task, Consumed))))
  {
  }

  /** From performing a task, or calling back for it, to its settlement. */
  lemma HandMoves(l: seq<Record>, p: Pc, q: Pc)
    requires Handled(l, p) && (p.Perform? || p.Calling?) && (q.Calling? || q.Settle?) && q.task == p.task
      && q.now == p.now
    requires q.Settle? ==> q.op == NetError || q.op == Finish(p.task, Consumed)
    ensures Handled(l, q)
  {
    assert Flight(q) == Flight(p) && Due(q) == Due(p);
  }

  lemma TurnBooks(s: State, a: Action)
    requires BooksKept(s)
    requires a.Transmit? || a.Plain? || a.Lookup? || a.Callback?
    ensures BooksKept(SchedNext(s, a))
  {
    HandShape(s, a);
    var pc := SchedNext(s, a).pc;
    if pc != s.pc {
      HandMoves(s.ledger, s.pc, pc);
    }
  }

  lemma IdleBooks(s: State, a: Action)
    requires BooksKept(s)
    requires a.Loop? || a.FlushTriggers? || a.AlertWrapper? || a.MarkDown?
    ensures BooksKept(SchedNext(s, a))
  {
  }

  lemma QueueBooks(s: State, a: Action)
    requires BooksKept(s) && (a.PopJob? || a.MoveBack? || a.FinalDrain?)
    ensures BooksKept(SchedNext(s, a))
  {
    if a.FinalDrain? {
      DrainBooks(s);
    } else if Flight(s.pc) == [] {
      BackBooks(s);
    }
  }

  lemma HandBooks(s: State, a: Action)
    requires BooksKept(s) && Conserved(s) && (a.SettleJob? || a.ReadClock?)
    ensures BooksKept(SchedNext(s, a))
  {
    if a.ReadClock? && s.pc.Judge? {
      RunBooks(s, s.pc.task, a.now);
    } else if a.SettleJob? && s.pc.Settle? {
      SettleBooks(s, s.pc.task, s.pc.now, s.pc.op);
    }
  }

  lemma StepBooks(s: State, a: Action)
    requires BooksKept(s) && Conserved(s)
    ensures BooksKept(Next(s, a))
  {
    if !BySched(a) {
      OtherStep(s, a);
      forall t, owned ensures BooksKept(AddTask(s, t, owned)) {
        AddBooks(s, t, owned);
      }
    } else if a.Transmit? || a.Plain? || a.Lookup? || a.Callback? {
      TurnBooks(s, a);
    } else if a.Loop? || a.FlushTriggers? || a.AlertWrapper? || a.MarkDown? {
      IdleBooks(s, a);
    } else if a.SettleJob? || a.ReadClock? {
      HandBooks(s, a);
    } else {
      QueueBooks(s, a);
    }
  }
}
