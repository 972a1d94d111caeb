/** The consequences a maintainer relies on, for every state reached and every way on from there. */
module Theorems {
  import opened Clock
  import opened Tasks
  import opened Triggers
  import opened Machine
  import opened Shapes
  import opened Conservation
  import opened Books
  import opened TriggerLife
  import opened Session
  import opened Losses
  import opened Runs

  /** Some interleaving of the three threads leads from the start to `s`. */
  ghost predicate Reachable(s: State) {
    exists acts :: s == Exec(Start(), acts)
  }

  lemma ReachableInv(s: State)
    requires Reachable(s)
    ensures Inv(s)
  {
    var acts :| s == Exec(Start(), acts);
    StartInv(Start());
    RunInv(Start(), acts);
  }

  // --------------------------------------------------------- where the tasks are

  lemma OnceEach(s: seq<nat>)
    requires forall i: nat :: multiset(s)[i] <= 1
    ensures forall a, b | 0 <= a < b < |s| :: s[a] != s[b]
  {
    forall a, b | 0 <= a < b < |s| ensures s[a] != s[b] {
      assert s == s[..b] + s[b..];
      assert s[a] in s[..b] && s[b] in s[b..];
      assert multiset(s)[s[a]] == multiset(s[..b])[s[a]] + multiset(s[b..])[s[a]];
    }
  }

  /** How often task `i` is in `jobs`, in `todo`, in the hands of the scheduler thread, freed, or lost. */
  function Places(s: State, i: nat): nat {
    Ids(s.jobs)[i] + Ids(s.todo)[i] + Ids(Flight(s.pc))[i] + multiset(s.freed)[i] + multiset(s.leaked)[i]
  }

  lemma FreedOnce(s: State)
    requires forall i: nat :: Places(s, i) <= 1
    ensures forall a, b | 0 <= a < b < |s.freed| :: s.freed[a] != s.freed[b]
  {
    forall i: nat ensures multiset(s.freed)[i] <= 1 {
      assert Places(s, i) <= 1;
    }
    OnceEach(s.freed);
  }

  /** Every task allocated is in exactly one of `jobs`, `todo`, the hands of the scheduler thread, the freed
      and the lost, and there once; between passes none is in `todo`. */
  lemma TaskInOnePlace(s: State)
    requires Reachable(s)
    ensures forall i: nat :: Places(s, i) == if i < |s.ledger| then 1 else 0
    ensures forall a, b | 0 <= a < b < |s.freed| :: s.freed[a] != s.freed[b]
    ensures s.pc.Top? ==> s.todo == []
  {
    ReachableInv(s);
    forall i: nat ensures Places(s, i) == if i < |s.ledger| then 1 else 0 {
      assert Placed(Live(s), multiset(s.freed), multiset(s.leaked), s.ledger, i);
    }
    FreedOnce(s);
  }

  // --------------------------------------------------------- which tasks are lost

  /** Of the tasks ever allocated exactly those are lost, neither queued nor freed, that were refused and
      are not Hello tasks; a refused Hello task is freed. */
  lemma LostExactly(s: State, i: nat)
    requires Reachable(s)
    ensures i in s.leaked <==> i < |s.ledger| && s.ledger[i].fate.Refused? && s.ledger[i].made.kind != Hello
    ensures i < |s.ledger| && s.ledger[i].fate.Refused? && s.ledger[i].made.kind == Hello ==> i in s.freed
  {
    ReachableInv(s);
    assert Lost(s.leaked, s.ledger, i);
    assert Placed(Live(s), multiset(s.freed), multiset(s.leaked), s.ledger, i);
  }

  lemma ArmedNoHello(s: State)
    requires Reachable(s)
    ensures s.npc.Armed? ==> s.npc.kind != Hello
  {
    ReachableInv(s);
  }

  /** A step loses a task if and only if it offers one, not a Hello task, after `stop`. */
  lemma LosesExactly(s: State, a: Action)
    requires Reachable(s) && !BySched(a)
    ensures Next(s, a).leaked != s.leaked <==> s.stop && Offered(s, a) != [] && Offered(s, a)[0].kind != Hello
  {
    ArmedNoHello(s);
    OfferIs(s, a);
  }

  /** It stays lost. */
  lemma LostForEver(s: State, more: seq<Action>, i: nat)
    requires Reachable(s) && i in s.leaked
    ensures var q := Exec(s, more); i in q.leaked && i !in q.freed && i !in Live(q)
  {
    ReachableInv(s);
    assert Lost(s.leaked, s.ledger, i);
    FateIsFinal(s, more, i);
    RunInv(s, more);
    var q := Exec(s, more);
    assert Lost(q.leaked, q.ledger, i);
    assert Placed(Live(q), multiset(q.freed), multiset(q.leaked), q.ledger, i);
  }

  /** So it happens: after `stop` every message sent through the API is lost. */
  lemma SendIsLost(s: State, a: Action)
    requires Reachable(s) && s.stop && a.Submit? && a.size > 0
    ensures Next(s, a).leaked == s.leaked + [|s.ledger|]
  {
    ArmedNoHello(s);
    OfferIs(s, a);
  }

  // -------------------------------------------------------- how often, and when

  /** The runs of a task: with `r >= 0` credits at most `r + 1`, each more than `elapse - 1` ms after
      the stamp before it, so run number k + 1 more than (k + 1) * (elapse - 1) ms after the first. */
  ghost predicate RunsBounded(r: Record) {
    && (r.made.resch >= 0 ==> |r.runs| <= r.made.resch + 1)
    && forall k | 0 <= k < |r.runs| :: NsBetween(r.made.issued, r.runs[k]) > (k + 1) * ((r.made.elapse - 1) * NS_PER_MS)
  }

  lemma AccountedBounded(r: Record)
    requires Accounted(r)
    ensures RunsBounded(r)
  {
    forall k | 0 <= k < |r.runs|
      ensures NsBetween(r.made.issued, r.runs[k]) > (k + 1) * ((r.made.elapse - 1) * NS_PER_MS)
    {
      Drift(r.made, r.runs, k);
    }
  }

  lemma SpentNotQueued(l: seq<Record>, q: seq<Task>, i: nat)
    requires Entered(l, q) && i < |l| && l[i].made.resch >= 0 && |l[i].runs| == l[i].made.resch + 1
    ensures forall t | t in q :: t.serial != i
  {
  }

  lemma NotQueued(q: seq<Task>, i: nat)
    requires forall t | t in q :: t.serial != i
    ensures i !in Ids(q)
  {
  }

  /** A task made with `r >= 0` credits is released for having run exactly on run `r + 1`: it is not queued
      again, and once the scheduler thread has let go of it, it is gone; a task with negative credits is
      never released for having run. */
  lemma RunsOfTask(s: State, i: nat)
    requires Reachable(s) && i < |s.ledger|
    ensures var r := s.ledger[i];
      && RunsBounded(r)
      && (r.fate.Done? ==> r.made.resch >= 0 && |r.runs| == r.made.resch + 1)
      && (r.made.resch >= 0 && |r.runs| == r.made.resch + 1 ==> forall t | t in s.jobs + s.todo :: t.serial != i)
      && (r.made.resch >= 0 && |r.runs| == r.made.resch + 1 && i !in Ids(Flight(s.pc)) ==> !r.fate.Alive?)
  {
    ReachableInv(s);
    assert Accounted(s.ledger[i]);
    AccountedBounded(s.ledger[i]);
    if s.ledger[i].made.resch >= 0 && |s.ledger[i].runs| == s.ledger[i].made.resch + 1 {
      SpentNotQueued(s.ledger, s.jobs, i);
      SpentNotQueued(s.ledger, s.todo, i);
      NotQueued(s.jobs, i);
      NotQueued(s.todo, i);
      assert Placed(Live(s), multiset(s.freed), multiset(s.leaked), s.ledger, i);
    }
  }

  // ------------------------------------------------------------- network errors

  lemma DumpMarks(s: State, i: nat)
    requires Conserved(s) && s.pc.Settle? && s.pc.op.NetError? && i in Live(s)
    ensures i < |s.ledger|
    ensures var r := Dumped(s, s.pc.task);
      |r.ledger| == |s.ledger| && r.ledger[i] == s.ledger[i].(fate := Dropped) && i in r.freed
  {
    var gone := [s.pc.task] + s.todo + s.jobs;
    DropMoves(s, s.pc.task);
    assert Placed(Live(s), multiset(s.freed), multiset(s.leaked), s.ledger, i);
    assert i in Serials(gone) <==> i in Ids(gone);
  }

  /** Once its fate is settled a task stays as it is, and out of the scheduler's hands. */
  lemma FateIsFinal(s: State, more: seq<Action>, i: nat)
    requires Inv(s) && i < |s.ledger| && !s.ledger[i].fate.Alive?
    ensures var q := Exec(s, more);
      i < |q.ledger| && q.ledger[i] == s.ledger[i] && i !in Live(q)
  {
    RunEvolves(s, more);
    RunInv(s, more);
    var q := Exec(s, more);
    assert RecordGrows(s.ledger, q.ledger, i);
    assert Placed(Live(q), multiset(q.freed), multiset(q.leaked), q.ledger, i);
  }

  lemma DumpInv(s: State, a: Action)
    requires Inv(s) && s.pc.Settle? && s.pc.op.NetError? && a.SettleJob?
    ensures Next(s, a) == Dumped(s, s.pc.task) && Inv(Dumped(s, s.pc.task))
  {
    StepInv(s, a);
  }

  /** The task in hand, and every task queued, when a network error is settled (by `SettleJob`, which
      then is `Dumped`): freed there, and never performed again, whatever happens next. */
  lemma NetErrorIsFinal(s: State, a: Action, more: seq<Action>, i: nat)
    requires Reachable(s) && s.pc.Settle? && s.pc.op.NetError? && a.SettleJob? && i in Live(s)
    ensures i < |s.ledger|
    ensures var q := Exec(Next(s, a), more);
      i < |q.ledger| && q.ledger[i] == s.ledger[i].(fate := Dropped) && i !in Live(q)
  {
    ReachableInv(s);
    DumpInv(s, a);
    DumpMarks(s, i);
    FateIsFinal(Dumped(s, s.pc.task), more, i);
  }

  // ------------------------------------------------------------------- stopping

  /** After `stop` no task enters the scheduler: every later task is refused, and what is live later
      was live before. Once `sched_loop` is over, both queues are empty for good. */
  lemma StopIsFinal(s: State, more: seq<Action>)
    requires Reachable(s) && s.stop
    ensures var q := Exec(s, more);
      && q.stop && |s.ledger| <= |q.ledger|
      && (forall i: nat | |s.ledger| <= i < |q.ledger| :: q.ledger[i].fate.Refused?)
      && (forall i | i in Live(q) :: i in Live(s))
      && (s.pc.Exited? ==> q.pc.Exited? && q.jobs == [] && q.todo == [])
  {
    ReachableInv(s);
    RunEvolves(s, more);
    RunInv(s, more);
    var q := Exec(s, more);
    forall i | i in Live(q) ensures i in Live(s) {
      assert Placed(Live(q), multiset(q.freed), multiset(q.leaked), q.ledger, i);
      assert i < |s.ledger|;
      assert RecordGrows(s.ledger, q.ledger, i);
      assert Placed(Live(s), multiset(s.freed), multiset(s.leaked), s.ledger, i);
    }
  }

  // ------------------------------------------------------------- stale triggers

  /** Trigger `id` was issued and is gone, and no task is in the middle of using it. */
  ghost predicate Gone(s: State, id: int) {
    1 <= id <= |s.minted| && Absent(s.table, id) && (s.pc.Calling? ==> s.pc.trigger.id != id)
  }

  /** Call `c` was made for trigger `id` by a task that looks its trigger up. */
  predicate Uses(c: Call, id: int) {
    c.trig == id && c.kind != UeReport
  }

  ghost predicate NoNewUse(before: seq<Call>, after: seq<Call>, id: int) {
    before <= after && forall k | |before| <= k < |after| :: !Uses(after[k], id)
  }

  /** The steps that make calls, or are about to. */
  lemma SilentCalls(s: State, a: Action, id: int)
    requires Gone(s, id) && (a.Plain? || a.Lookup? || a.Callback?)
    ensures NoNewUse(s.calls, SchedNext(s, a).calls, id)
    ensures SchedNext(s, a).pc.Calling? ==> SchedNext(s, a).pc.trigger.id != id
  {
  }

  lemma SilentRest(s: State, a: Action, id: int)
    requires Gone(s, id) && BySched(a) && !a.Plain? && !a.Lookup? && !a.Callback?
    ensures SchedNext(s, a).calls == s.calls
    ensures SchedNext(s, a).pc.Calling? ==> SchedNext(s, a).pc == s.pc
  {
  }

  lemma SilentStep(s: State, a: Action, id: int)
    requires TriggersKept(s) && Gone(s, id)
    ensures Gone(Next(s, a), id) && NoNewUse(s.calls, Next(s, a).calls, id)
  {
    TableStep(s, a, id);
    if BySched(a) {
      SchedShape(s, a);
      if a.Plain? || a.Lookup? || a.Callback? {
        SilentCalls(s, a, id);
      } else {
        SilentRest(s, a, id);
      }
    }
  }

  /** A trigger that was deleted or flushed, by any thread and at any time before it is looked up, is
      never used again: no callback of a task that looks its trigger up is made for it any more. */
  lemma {:induction false} StaleTriggerSilent(s: State, more: seq<Action>, id: int)
    requires Inv(s) && Gone(s, id)
    ensures Gone(Exec(s, more), id) && NoNewUse(s.calls, Exec(s, more).calls, id)
    decreases |more|
  {
    if more != [] {
      var b := more[..|more| - 1];
      StaleTriggerSilent(s, b, id);
      RunInv(s, b);
      SilentStep(Exec(s, b), more[|more| - 1], id);
    }
  }

  /** Deleting by id takes the trigger of that id from the table, if it is there, and no other. */
  lemma DeletesExactly(s: State, a: Action)
    requires Reachable(s) && a.DelTrigger?
    ensures Absent(Next(s, a).table, a.id)
    ensures forall g: Trigger | g.id != a.id :: g in Next(s, a).table <==> g in s.table
  {
    TableInOrder(s);
    DeletesOne(s.table, a.id);
  }

  lemma DeletesOne(table: seq<Trigger>, id: int)
    requires forall i, j | 0 <= i < j < |table| :: table[i].id > table[j].id
    ensures var r := RemoveFirst(table, HasId(id));
      Absent(r, id) && forall g: Trigger | g.id != id :: g in r <==> g in table
  {
    var k := First(table, HasId(id));
    if k < |table| {
      DeleteShapeOf(table, k);
      var r := RemoveFirst(table, HasId(id));
      forall g: Trigger | g.id != id && g in table ensures g in r {
        var i :| 0 <= i < |table| && table[i] == g;
        assert r[if i < k then i else i - 1] == g;
      }
    }
  }

  /** So an id that was given out and is then deleted is gone for good: whatever happens afterwards, the table
      does not hold it again, and unless a callback for it is under way there is none any more. */
  lemma DeletedForGood(s: State, a: Action, more: seq<Action>)
    requires Reachable(s) && a.DelTrigger? && 1 <= a.id <= |s.minted|
    requires s.pc.Calling? ==> s.pc.trigger.id != a.id
    ensures var q, r := Next(s, a), Exec(Next(s, a), more);
      Absent(r.table, a.id) && NoNewUse(q.calls, r.calls, a.id)
  {
    ReachableInv(s);
    StepInv(s, a);
    DeletesExactly(s, a);
    StaleTriggerSilent(Next(s, a), more, a.id);
  }

  /** When a task made for a trigger that is gone is performed, and the wrapper provides its callback, there
      is a callback if and only if the task is a UE report; all others are consumed silently. No other step
      of the scheduler thread does anything. */
  lemma StaleCallsExactly(s: State, a: Action, t: Task, now: Timespec)
    requires s.pc == Perform(t, now) && MadeForTrigger(t) && Absent(s.table, t.trig) && BySched(a)
    ensures var q := Next(s, a);
      if t.kind == UeReport && a.Plain? then
        && q.calls == s.calls + (if a.called then [Call(t.serial, UeReport, 0, t.trig)] else [])
        && q.pc == Settle(t, now, if t.resch == 0 then Consumed else Reschedule)
      else if t.kind != UeReport && a.Lookup? then
        q.calls == s.calls && q.pc == Settle(t, now, if t.resch == 0 then Consumed else Reschedule)
      else q == s
  {
    var p := HasId(t.trig);
    FirstIs(s.table, p, |s.table|);
  }

  /** A UE report looks no trigger up: its callback comes even though the trigger was deleted before,
      and names module 0, whatever the module of the request was. */
  lemma StaleReport(s: State, mod: int, t0: Timespec, t1: Timespec)
    requires s.npc.Idle? && s.pc.Top? && !s.stop && s.jobs == [] && s.table == [] && s.next < INT_MAX
    requires Elapsed(t0, t1, 1)
    ensures exists acts :: var q := Exec(s, acts);
      q.table == [] && q.calls == s.calls + [Call(|s.ledger|, UeReport, 0, s.next)]
  {
    var a := ArmAndDelete(s, mod, t0);
    var b := Report(Exec(s, a), t0, t1);
    ExecAdd(s, a, b);
    assert Exec(s, a + b).table == [];
  }

  lemma ArmAndLaunch(s: State, mod: int, at: Timespec) returns (r: State)
    requires s.npc.Idle? && s.pc.Top? && !s.stop && s.jobs == [] && s.table == [] && s.next < INT_MAX
    ensures r == Exec(s, [Arm(UeReport, mod, 0, [])] + [Launch(at)])
    ensures r.table == [Trigger(s.next, ArmKey(UeReport, mod, 0), [])] && r.calls == s.calls && r.pc.Top? && !r.stop
    ensures r.jobs == [Task(|s.ledger|, UeReport, 1, 0, s.next, 0, at)]
  {
    var armed := ExecOne(s, Arm(UeReport, mod, 0, []));
    r := ExecOne(armed, Launch(at));
    ExecAdd(s, [Arm(UeReport, mod, 0, [])], [Launch(at)]);
  }

  lemma ArmAndDelete(s: State, mod: int, at: Timespec) returns (acts: seq<Action>)
    requires s.npc.Idle? && s.pc.Top? && !s.stop && s.jobs == [] && s.table == [] && s.next < INT_MAX
    ensures var q := Exec(s, acts);
      && q.table == [] && q.calls == s.calls && q.pc.Top? && !q.stop
      && q.jobs == [Task(|s.ledger|, UeReport, 1, 0, s.next, 0, at)]
  {
    var launched := ArmAndLaunch(s, mod, at);
    var deleted := ExecOne(launched, DelTrigger(s.next));
    FirstIs(launched.table, HasId(s.next), 0);
    acts := [Arm(UeReport, mod, 0, [])] + [Launch(at)];
    ExecAdd(s, acts, [DelTrigger(s.next)]);
    acts := acts + [DelTrigger(s.next)];
  }

  lemma Report(s: State, t0: Timespec, t1: Timespec) returns (acts: seq<Action>)
    requires s.pc.Top? && !s.stop && |s.jobs| == 1 && Elapsed(t0, t1, 1)
    requires var t := s.jobs[0]; t == Task(t.serial, UeReport, 1, 0, t.trig, 0, t0)
    ensures var q := Exec(s, acts);
      q.table == s.table && q.calls == s.calls + [Call(s.jobs[0].serial, UeReport, 0, s.jobs[0].trig)]
  {
    var looped := ExecOne(s, Loop);
    var popped := ExecOne(looped, PopJob);
    var due := ExecOne(popped, ReadClock(t1));
    var called := ExecOne(due, Plain(true, 0));
    ExecAdd(s, [Loop], [PopJob]);
    ExecAdd(s, [Loop] + [PopJob], [ReadClock(t1)]);
    ExecAdd(s, [Loop] + [PopJob] + [ReadClock(t1)], [Plain(true, 0)]);
    acts := [Loop] + [PopJob] + [ReadClock(t1)] + [Plain(true, 0)];
  }

  /** Every callback of a task made for a trigger carries the id of that very trigger, which is of its
      kind. Its module is the trigger's too, but for UE reports: theirs is always 0, so it is right if and
      only if the module of the trigger is 0. A callback of any other task names no trigger. */
  lemma CallsGenuine(s: State, c: Call)
    requires Reachable(s) && c in s.calls
    ensures c.serial < |s.ledger|
    ensures var made := s.ledger[c.serial].made;
      && c.kind == made.kind
      && (!MadeForTrigger(made) ==> c.trig == -1)
      && (MadeForTrigger(made) ==>
        && 1 <= made.trig <= |s.minted|
        && var g := s.minted[made.trig - 1];
          && c.trig == made.trig == g.id && g.key.kind == FiledType(made.kind)
          && (made.kind != UeReport ==> c.mod == g.key.mod)
          && (made.kind == UeReport ==> c.mod == 0 && (c.mod == g.key.mod <==> g.key.mod == 0)))
  {
    ReachableInv(s);
    var i :| 0 <= i < |s.calls| && s.calls[i] == c;
    assert CallOk(s.minted, s.ledger, s.calls[i]);
    assert Linked(s.minted, s.ledger[c.serial].made);
  }

  /** The ids in the table fall from head to tail, and lie between 1 and the last one given out; each
      stands for the one trigger it was given to, so that none is ever used twice. */
  lemma TableInOrder(s: State)
    requires Reachable(s)
    ensures s.next == |s.minted| + 1
    ensures forall i, j | 0 <= i < j < |s.table| :: s.table[i].id > s.table[j].id
    ensures forall i | 0 <= i < |s.table| :: 1 <= s.table[i].id < s.next && s.table[i] == s.minted[s.table[i].id - 1]
    ensures forall i | 0 <= i < |s.table| :: First(s.table, HasId(s.table[i].id)) == i
  {
    ReachableInv(s);
    forall i | 0 <= i < |s.table|
      ensures 1 <= s.table[i].id < s.next && s.table[i] == s.minted[s.table[i].id - 1]
      ensures First(s.table, HasId(s.table[i].id)) == i
    {
      assert Genuine(s.minted, s.table[i]);
      IdUnique(s.minted, s.table, i);
    }
  }

  // --------------------------------------------------------------- connections

  /** The Hello tasks alive are those added since the last dump, and the numbers on the messages of a
      connection are 0, 1, 2, ... modulo 2^32. */
  lemma SessionHolds(s: State)
    requires Reachable(s)
    ensures Hellos(s.jobs) + Hellos(s.todo) + Hellos(Flight(s.pc)) == s.hellos
    ensures s.net.nextSeq == |s.net.handed| % UINT32
    ensures forall i | 0 <= i < |s.net.handed| :: s.net.handed[i] == i % UINT32
  {
    ReachableInv(s);
  }

  /** Whoever lowers the status, the numbers of the next connection begin at 0. */
  lemma LoweredResets(s: State, a: Action)
    requires s.net.up && !Next(s, a).net.up
    ensures Next(s, a).net == Net(false, 0, [])
  {
  }

  /** While the network thread makes a connection the status is down. */
  predicate DownWhileJoining(s: State) {
    s.npc.Joined? || s.npc.Greeted? || s.npc.Spurned? ==> !s.net.up
  }

  lemma DownStep(s: State, a: Action)
    requires DownWhileJoining(s)
    ensures DownWhileJoining(Next(s, a))
  {
  }

  lemma {:induction false} DownRun(acts: seq<Action>)
    ensures DownWhileJoining(Exec(Start(), acts))
    decreases |acts|
  {
    if acts != [] {
      var b := acts[..|acts| - 1];
      DownRun(b);
      DownStep(Exec(Start(), b), acts[|acts| - 1]);
    }
  }

  /** A Hello task is added only for a new connection: with the status down, and before `stop`. */
  lemma GreetedWhileDown(s: State, a: Action)
    requires Reachable(s) && LiveHellos(Next(s, a)) > LiveHellos(s)
    ensures a.Greet? && s.npc.Joined? && !s.net.up && !s.stop
  {
    var acts :| s == Exec(Start(), acts);
    DownRun(acts);
    HelloStep(s, a);
  }

  lemma HelloStep(s: State, a: Action)
    requires Reachable(s)
    ensures LiveHellos(Next(s, a)) > LiveHellos(s) ==> Next(s, a).hellos > s.hellos
    ensures Next(s, a).hellos > s.hellos ==> a.Greet? && s.npc.Joined? && !s.stop
  {
    var next := ExecOne(s, a);
    HellosCounted(s, [a]);
    GreetsOnly(s, a);
  }

  lemma GreetsOnly(s: State, a: Action)
    ensures Next(s, a).hellos > s.hellos ==> a.Greet? && s.npc.Joined? && !s.stop
  {
  }

  /** Making the connection adds one Hello task. */
  lemma Reconnects(s: State, at: Timespec) returns (q: State)
    requires s.npc.Idle? && !s.net.up && !s.stop
    ensures q == Exec(s, [Connect, Greet(at), MarkUp])
    ensures q.npc.Idle? && q.net.up && !q.stop && q.hellos == s.hellos + 1
  {
    var joined := ExecOne(s, Connect);
    var greeted := ExecOne(joined, Greet(at));
    q := ExecOne(greeted, MarkUp);
    ExecAdd(s, [Connect], [Greet(at)]);
    ExecAdd(s, [Connect, Greet(at)], [MarkUp]);
    assert [Connect] + [Greet(at)] + [MarkUp] == [Connect, Greet(at), MarkUp];
  }

  lemma TwoGreets(s: State, at: Timespec, acts: seq<Action>)
    requires s.npc.Idle? && !s.net.up && !s.stop
    requires acts == [Connect, Greet(at), MarkUp] + ([Hangup] + [Connect, Greet(at), MarkUp])
    ensures Exec(s, acts).net.up && Exec(s, acts).hellos == s.hellos + 2
  {
    var up := Reconnects(s, at);
    var lost := ExecOne(up, Hangup);
    var again := Reconnects(lost, at);
    ExecAdd(up, [Hangup], [Connect, Greet(at), MarkUp]);
    ExecAdd(s, [Connect, Greet(at), MarkUp], [Hangup] + [Connect, Greet(at), MarkUp]);
  }

  lemma HellosCounted(s: State, acts: seq<Action>)
    requires Reachable(s)
    ensures LiveHellos(s) == s.hellos && LiveHellos(Exec(s, acts)) == Exec(s, acts).hellos
  {
    ReachableInv(s);
    RunInv(s, acts);
  }

  /** A connection that the network thread finds lost and makes again leaves two more Hello tasks alive:
      the one of the connection lost is not taken back. */
  lemma HellosPileUp(s: State, at: Timespec, acts: seq<Action>)
    requires Reachable(s) && s.npc.Idle? && !s.net.up && !s.stop
    requires acts == [Connect, Greet(at), MarkUp] + ([Hangup] + [Connect, Greet(at), MarkUp])
    ensures Exec(s, acts).net.up && LiveHellos(Exec(s, acts)) == LiveHellos(s) + 2
  {
    TwoGreets(s, at, acts);
    HellosCounted(s, acts);
  }

  lemma GreetCounts(s: State, a: Action)
    requires a.Greet? && s.npc.Joined?
    ensures Next(s, a).hellos == s.hellos + if s.stop then 0 else 1
  {
  }

  /** A new connection leaves more than one Hello task alive if and only if one was still alive, which it is
      unless every one was dumped by a network error of the scheduler thread; after `stop` it adds none. */
  lemma HellosExactly(s: State, a: Action)
    requires Reachable(s) && a.Greet? && s.npc.Joined?
    ensures LiveHellos(Next(s, a)) == LiveHellos(s) + if s.stop then 0 else 1
    ensures !s.stop ==> (LiveHellos(Next(s, a)) > 1 <==> s.hellos > 0)
  {
    GreetCounts(s, a);
    var next := ExecOne(s, a);
    HellosCounted(s, [a]);
  }
}
