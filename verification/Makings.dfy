/** What every task is made as, and what follows from it: how often tasks of each kind are performed, and a
    message handed over. */
module Makings {
  import opened Tasks
  import opened Machine
  import opened Shapes
  import opened Books
  import opened Losses
  import opened Runs
  import opened Theorems

  // ------------------------------------------------------------ how tasks are made

  /** The task is asked for by a trigger, and carries its id. */
  predicate ForTrigger(k: Kind) {
    k == UeReport || k == UeMeasure || k == CellMeasure
  }

  /** The two kinds that go round for ever: Hello tasks, and cell measurements without a trigger. */
  predicate Repeats(t: Task) {
    t.kind == Hello || (t.kind == CellMeasure && t.trig == 0)
  }

  /** What the callers of `task_alloc` make of each kind. */
  predicate WellMade(t: Task) {
    && t.kind != Invalid
    && t.resch == (if Repeats(t) then -1 else 0)
    && (if t.kind == UeReport || t.kind == UeMeasure then t.trig >= 1
        else if t.kind == CellMeasure then t.trig >= 0 else t.trig == 0)
    && (t.kind == Hello ==> t.elapse == 2000)
    && (!Repeats(t) ==> t.elapse == 1)
    && (t.kind == Send <==> t.size > 0)
  }

  ghost predicate AllWellMade(l: seq<Record>) {
    forall i | 0 <= i < |l| :: WellMade(l[i].made)
  }

  ghost predicate MadeKept(s: State) {
    AllWellMade(s.ledger) && s.next >= 1 && (s.npc.Armed? ==> ForTrigger(s.npc.kind) && s.npc.trigger.id >= 1)
  }

  /** What is offered is well made. */
  lemma OfferedWell(s: State, a: Action)
    requires MadeKept(s) && !BySched(a)
    ensures forall t | t in Offered(s, a) :: WellMade(t)
  {
  }

  lemma AppendWell(l: seq<Record>, r: Record)
    requires AllWellMade(l) && WellMade(r.made)
    ensures AllWellMade(l + [r])
  {
  }

  lemma OtherMade(s: State, a: Action)
    requires MadeKept(s) && !BySched(a)
    ensures AllWellMade(Next(s, a).ledger)
  {
    OfferIs(s, a);
    OfferedWell(s, a);
    var ts := Offered(s, a);
    if ts != [] {
      assert ts[0] in ts;
      var t := ts[0].(serial := |s.ledger|);
      AppendWell(s.ledger, Record(t, [], if s.stop then Refused else Alive));
    }
  }

  lemma OtherArmed(s: State, a: Action)
    requires MadeKept(s) && !BySched(a)
    ensures var q := Next(s, a);
      q.next >= 1 && (q.npc.Armed? ==> ForTrigger(q.npc.kind) && q.npc.trigger.id >= 1)
  {
  }

  lemma MadeStep(s: State, a: Action)
    requires MadeKept(s)
    ensures MadeKept(Next(s, a))
  {
    if BySched(a) {
      SchedShape(s, a);
    } else {
      OtherMade(s, a);
      OtherArmed(s, a);
    }
  }

  lemma {:induction false} MadeRun(acts: seq<Action>)
    ensures MadeKept(Exec(Start(), acts))
    decreases |acts|
  {
    if acts != [] {
      var b := acts[..|acts| - 1];
      MadeRun(b);
      MadeStep(Exec(Start(), b), acts[|acts| - 1]);
    }
  }

  /** In every reachable state every task, and the one in hand with what it has left, is as its kind asks. */
  lemma TasksWellMade(s: State)
    requires Reachable(s)
    ensures forall i | 0 <= i < |s.ledger| :: WellMade(s.ledger[i].made)
    ensures forall t | t in Flight(s.pc) :: WellMade(t)
  {
    var acts :| s == Exec(Start(), acts);
    MadeRun(acts);
    ReachableInv(s);
    forall t | t in Flight(s.pc) ensures WellMade(t) {
      assert Booked(s.ledger, t, Due(s.pc));
      assert WellMade(s.ledger[t.serial].made);
    }
  }

  // ---------------------------------------------------------------- how often

  /** Every task but the Hello tasks and the scheduled cell measurements is performed at most once, and
      exactly once if it is released for having run; those two are never released for having run. */
  lemma OnceOrForEver(s: State, i: nat)
    requires Reachable(s) && i < |s.ledger|
    ensures var r := s.ledger[i];
      if r.made.kind == Hello || (r.made.kind == CellMeasure && r.made.trig == 0) then !r.fate.Done?
      else |r.runs| <= 1 && (r.fate.Done? ==> |r.runs| == 1)
  {
    TasksWellMade(s);
    RunsOfTask(s, i);
  }

  /** The step hands the message of task `i` to `net_send`. */
  predicate HandsOver(s: State, a: Action, i: nat) {
    a.Transmit? && s.pc.Perform? && s.pc.task.kind == Send && s.pc.task.serial == i && s.pc.task.size <= 4096
  }

  /** How often that happens. */
  function Sendings(s: State, acts: seq<Action>, i: nat): nat
    decreases |acts|
  {
    if acts == [] then 0
    else
      var b, a := acts[..|acts| - 1], acts[|acts| - 1];
      Sendings(s, b, i) + if HandsOver(Exec(s, b), a, i) then 1 else 0
  }

  /** Task `i` has been found due and is about to be performed. */
  function Pending(pc: Pc, i: nat): nat {
    if pc.Perform? && pc.task.serial == i then 1 else 0
  }

  /** `n` is how often the message of a send should have been handed over: once for each time the task was
      performed, but never if the message is too long. */
  predicate CountIs(r: Record, pending: nat, n: nat) {
    if r.made.kind != Send then true else if r.made.size <= 4096 then n + pending == |r.runs| else n == 0
  }

  ghost predicate Counted(s: State, i: nat, n: nat) {
    if i < |s.ledger| then CountIs(s.ledger[i], Pending(s.pc, i), n) else n == 0
  }

  lemma HandKnownAs(s: State)
    requires BooksKept(s)
    ensures forall t | t in Flight(s.pc) ::
      t.serial < |s.ledger| && t.kind == s.ledger[t.serial].made.kind && t.size == s.ledger[t.serial].made.size
  {
    forall t | t in Flight(s.pc)
      ensures t.serial < |s.ledger| && t.kind == s.ledger[t.serial].made.kind && t.size == s.ledger[t.serial].made.size
    {
      assert Booked(s.ledger, t, Due(s.pc));
    }
  }

  lemma CountOther(s: State, a: Action, i: nat, n: nat)
    requires BooksKept(s) && (s.npc.Armed? ==> s.npc.kind != Hello) && !BySched(a) && Counted(s, i, n)
    ensures Counted(Next(s, a), i, n)
  {
    HandKnownAs(s);
    OtherShape(s, a);
    OfferIs(s, a);
  }

  lemma JudgeMoves(s: State, a: Action)
    requires s.pc.Judge? && a.ReadClock? && s.pc.task.serial < |s.ledger|
    ensures var q, j := Next(s, a), s.pc.task.serial;
      && |q.ledger| == |s.ledger|
      && (forall i | 0 <= i < |s.ledger| && i != j :: q.ledger[i] == s.ledger[i])
      && q.ledger[j].made == s.ledger[j].made && |q.ledger[j].runs| == |s.ledger[j].runs| + Pending(q.pc, j)
      && (q.pc.Perform? ==> q.pc.task.serial == j)
  {
  }

  lemma CountJudge(s: State, a: Action, i: nat, n: nat)
    requires BooksKept(s) && s.pc.Judge? && a.ReadClock? && Counted(s, i, n)
    ensures Counted(Next(s, a), i, n)
  {
    HandKnownAs(s);
    assert s.pc.task in Flight(s.pc);
    JudgeMoves(s, a);
  }

  /** Performing a send either leaves the task where it is or hands the message over. */
  lemma PerformMoves(s: State, a: Action)
    requires s.pc.Perform? && BySched(a)
    ensures var q := Next(s, a);
      q.ledger == s.ledger && (q.pc.Perform? ==> q.pc == s.pc)
      && (s.pc.task.kind == Send ==> if a.Transmit? then q.pc.Settle? else q.pc == s.pc)
  {
  }

  lemma CountPerform(s: State, a: Action, i: nat, n: nat)
    requires BooksKept(s) && s.pc.Perform? && BySched(a) && Counted(s, i, n)
    ensures Counted(Next(s, a), i, n + if HandsOver(s, a, i) then 1 else 0)
  {
    HandKnownAs(s);
    assert s.pc.task in Flight(s.pc);
    PerformMoves(s, a);
  }

  /** No other step performs a task. */
  lemma SameRuns(s: State, a: Action)
    requires !s.pc.Perform? && BySched(a) && !(a.ReadClock? && s.pc.Judge?)
    ensures var q := Next(s, a);
      && !q.pc.Perform? && |q.ledger| == |s.ledger|
      && forall i | 0 <= i < |s.ledger| :: q.ledger[i].made == s.ledger[i].made && q.ledger[i].runs == s.ledger[i].runs
  {
  }

  lemma CountStep(s: State, a: Action, i: nat, n: nat)
    requires BooksKept(s) && (s.npc.Armed? ==> s.npc.kind != Hello) && Counted(s, i, n)
    ensures Counted(Next(s, a), i, n + if HandsOver(s, a, i) then 1 else 0)
  {
    if !BySched(a) {
      CountOther(s, a, i, n);
    } else if s.pc.Perform? {
      CountPerform(s, a, i, n);
    } else if a.ReadClock? && s.pc.Judge? {
      CountJudge(s, a, i, n);
    } else {
      SameRuns(s, a);
    }
  }

  lemma {:induction false} SendingsCounted(s: State, acts: seq<Action>, i: nat)
    requires Inv(s) && Counted(s, i, 0)
    ensures Counted(Exec(s, acts), i, Sendings(s, acts, i))
    decreases |acts|
  {
    if acts != [] {
      var b, a := acts[..|acts| - 1], acts[|acts| - 1];
      var r := Exec(s, b);
      SendingsCounted(s, b, i);
      RunInv(s, b);
      CountStep(r, a, i, Sendings(s, b, i));
    }
  }

  lemma DoneNotInHand(s: State, i: nat)
    requires Inv(s) && i < |s.ledger| && s.ledger[i].fate.Done?
    ensures Pending(s.pc, i) == 0
  {
    if s.pc.Perform? {
      HandAlone(s, s.pc.task);
    }
  }

  lemma CountedOnce(s: State, i: nat, n: nat)
    requires Reachable(s) && i < |s.ledger| && s.ledger[i].made.kind == Send && Counted(s, i, n)
    ensures var r := s.ledger[i]; n <= 1 && (r.fate.Done? ==> n == if r.made.size <= 4096 then 1 else 0)
  {
    OnceOrForEver(s, i);
    ReachableInv(s);
    if s.ledger[i].fate.Done? {
      DoneNotInHand(s, i);
    }
  }

  lemma NothingCounted(s: State, i: nat)
    requires s == Start()
    ensures Inv(s) && Counted(s, i, 0)
  {
    StartInv(s);
  }

  lemma ReachedFrom(start: State, acts: seq<Action>, s: State)
    requires start == Start() && s == Exec(start, acts)
    ensures Reachable(s)
  {
  }

  lemma SendingsOnce(start: State, acts: seq<Action>, s: State, i: nat)
    requires Inv(start) && Counted(start, i, 0) && Reachable(s) && s == Exec(start, acts)
    requires i < |s.ledger| && s.ledger[i].made.kind == Send
    ensures var n, r := Sendings(start, acts, i), s.ledger[i];
      n <= 1 && (r.fate.Done? ==> n == if r.made.size <= 4096 then 1 else 0)
  {
    SendingsCounted(start, acts, i);
    CountedOnce(s, i, Sendings(start, acts, i));
  }

  /** In every run a message is handed to `net_send` at most once, and exactly once if its task was released
      for having run and the message is not too long. */
  lemma SentOnce(start: State, acts: seq<Action>, s: State, i: nat)
    requires start == Start() && s == Exec(start, acts) && i < |s.ledger| && s.ledger[i].made.kind == Send
    ensures var n, r := Sendings(start, acts, i), s.ledger[i];
      n <= 1 && (r.fate.Done? ==> n == if r.made.size <= 4096 then 1 else 0)
  {
    NothingCounted(start, i);
    ReachedFrom(start, acts, s);
    SendingsOnce(start, acts, s, i);
  }
}
