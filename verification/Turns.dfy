/** The scheduler thread with the others around it: what it does next is decided by where it is. */
module Turns {
  import opened Clock
  import opened Tasks
  import opened Machine
  import opened Shapes
  import opened Scheduler
  import opened Runs
  import opened Theorems

  /** What surrounds one step of the scheduler thread: what the other threads do before it, what the
      thread learns in it, and, if it runs a callback of the wrapper, the API calls made in there. */
  datatype Tick = Tick(others: seq<Action>, now: Timespec, blen: int, sent: bool, called: bool, mod: int,
                       provided: bool, count: nat, inside: seq<Action>)

  ghost predicate Proper(t: Tick) {
    (forall a | a in t.others :: !BySched(a)) && (forall a | a in t.inside :: ByApi(a))
  }

  /** The step the scheduler thread takes at `pc`. */
  function Chosen(pc: Pc, t: Tick): Action {
    match pc
    case Top => Loop
    case Pop => PopJob
    case Judge(_) => ReadClock(t.now)
    case Perform(task, _) =>
      if task.kind == Send || task.kind == Hello then Transmit(t.blen, t.sent)
      else if NeedsTrigger(task) then Lookup(t.provided, t.count)
      else Plain(t.called, t.mod)
    case Calling(_, _, _, _) => Callback
    case Settle(_, _, _) => SettleJob
    case Flush => FlushTriggers
    case Alert => AlertWrapper(t.provided)
    case Down => MarkDown
    case Back => MoveBack
    case Drain => FinalDrain
    case Exited => Loop
  }

  /** That step runs code of the wrapper. */
  predicate CallsOut(pc: Pc, t: Tick) {
    match pc
    case Perform(task, _) => RunsCallback(task.kind) && !NeedsTrigger(task) && t.called
    case Calling(_, _, _, left) => left > 0
    case Alert => t.provided
    case _ => false
  }

  function Ticked(s: State, t: Tick): State {
    var r := Exec(s, t.others);
    var q := SchedNext(r, Chosen(r.pc, t));
    if CallsOut(r.pc, t) then Exec(q, t.inside) else q
  }

  function TickRun(s: State, o: nat -> Tick, k: nat): State {
    if k == 0 then s else Ticked(TickRun(s, o, k - 1), o(k - 1))
  }

  lemma ChosenBySched(pc: Pc, t: Tick)
    ensures BySched(Chosen(pc, t))
  {
  }

  /** A tick is a stretch of a run of the machine, so all that holds of runs holds of ticks. */
  lemma TickIsRun(s: State, t: Tick) returns (acts: seq<Action>)
    ensures Ticked(s, t) == Exec(s, acts)
  {
    var r := Exec(s, t.others);
    ChosenBySched(r.pc, t);
    var _ := ExecOne(r, Chosen(r.pc, t));
    acts := t.others + [Chosen(r.pc, t)];
    ExecAdd(s, t.others, [Chosen(r.pc, t)]);
    if CallsOut(r.pc, t) {
      ExecAdd(s, acts, t.inside);
      acts := acts + t.inside;
    }
  }

  // ----------------------------------------------------- what others cannot do

  /** What the other threads do before this turn adds no task to the queue: they ask for none, or all
      they ask for is refused. */
  predicate Quiet(s: State, t: Tick) {
    Exec(s, t.others).jobs == s.jobs
  }

  lemma OtherMoves(s: State, a: Action)
    requires !BySched(a)
    ensures Next(s, a).pc == s.pc && Next(s, a).alerts == s.alerts && Next(s, a).todo == s.todo
    ensures s.stop ==> Next(s, a).stop && Next(s, a).jobs == s.jobs
    ensures ByApi(a) ==> CallbackTasks(Next(s, a).jobs) == CallbackTasks(s.jobs)
  {
    OtherShape(s, a);
    if a.Submit? {
      CallbackTasksAdd(s.jobs, [SendTask(a.size, a.at).(serial := |s.ledger|)]);
    }
  }

  lemma {:induction false} OthersMove(s: State, acts: seq<Action>)
    requires forall a | a in acts :: !BySched(a)
    ensures Exec(s, acts).pc == s.pc && Exec(s, acts).alerts == s.alerts && Exec(s, acts).todo == s.todo
    ensures s.stop ==> Exec(s, acts).stop && Exec(s, acts).jobs == s.jobs
    ensures (forall a | a in acts :: ByApi(a)) ==> CallbackTasks(Exec(s, acts).jobs) == CallbackTasks(s.jobs)
    decreases |acts|
  {
    if acts != [] {
      var b := acts[..|acts| - 1];
      assert acts == b + [acts[|acts| - 1]];
      OthersMove(s, b);
      OtherMoves(Exec(s, b), acts[|acts| - 1]);
    }
  }

  // ------------------------------- a turn, once the others have left off at `r`

  lemma TickFrom(s: State, t: Tick, r: State)
    requires Proper(t) && r == Exec(s, t.others)
    ensures r.pc == s.pc
    ensures var q := SchedNext(r, Chosen(r.pc, t)); Ticked(s, t) == if CallsOut(r.pc, t) then Exec(q, t.inside) else q
  {
    OthersMove(s, t.others);
  }

  lemma PopIs(r: State, t: Tick)
    requires r.pc.Pop?
    ensures SchedNext(r, Chosen(r.pc, t)) == Popped(r)
  {
  }

  lemma JudgeIs(r: State, t: Tick)
    requires r.pc.Judge?
    ensures SchedNext(r, Chosen(r.pc, t)) == Judged(r, r.pc.task, t.now)
  {
  }

  lemma SettleIs(r: State, t: Tick)
    requires r.pc.Settle?
    ensures SchedNext(r, Chosen(r.pc, t)) == Settled(r, r.pc.task, r.pc.now, r.pc.op)
    ensures SchedNext(r, Chosen(r.pc, t)).pc == if r.pc.op == NetError then Flush else Pop
  {
  }

  /** What settling a task does to what the contexts hold. */
  lemma SettledIs(m: State, t: Task, now: Timespec, op: Outcome)
    ensures var q := Settled(m, t, now, op);
      && q.jobs == (if op == NetError then [] else m.jobs)
      && q.todo == AfterTodo(m.todo, t, now, op) && q.freed == AfterFreed(m.freed, m.todo + m.jobs, t, op)
      && q.stop == m.stop && q.table == m.table && q.next == m.next && q.net == m.net && q.npc == m.npc
      && q.calls == m.calls && q.alerts == m.alerts && |q.ledger| == |m.ledger|
  {
    if op == NetError {
      assert Serials([t] + m.todo + m.jobs) == [t.serial] + Serials(m.todo + m.jobs);
    } else if op == Consumed {
      assert Serials([t]) == [t.serial];
    }
  }

  lemma TickSettles(s: State, t: Tick, r: State)
    requires Proper(t) && s.pc.Settle? && r == Exec(s, t.others)
    ensures r.pc == s.pc && Ticked(s, t) == Settled(r, s.pc.task, s.pc.now, s.pc.op)
    ensures Ticked(s, t).pc == if s.pc.op == NetError then Flush else Pop
  {
    TickFrom(s, t, r);
    SettleIs(r, t);
  }

  lemma PerformIs(r: State, t: Tick, task: Task, now: Timespec)
    requires r.pc == Perform(task, now)
    ensures SchedNext(r, Chosen(r.pc, t)) ==
      if task.kind == Send || task.kind == Hello then Transmitted(r, task, now, t.blen, t.sent)
      else if NeedsTrigger(task) then LookedUp(r, task, now, t.provided, t.count)
      else Plainly(r, task, now, t.called, t.mod)
  {
  }

  lemma CallIs(r: State, t: Tick)
    requires r.pc.Calling?
    ensures SchedNext(r, Chosen(r.pc, t)) == CalledBack(r, r.pc.task, r.pc.now, r.pc.trigger, r.pc.left)
  {
  }

  lemma DownIs(r: State, t: Tick)
    requires r.pc.Flush? || r.pc.Alert? || r.pc.Down? || r.pc.Back?
    ensures var q := SchedNext(r, Chosen(r.pc, t));
      && (r.pc.Flush? ==> q == r.(table := [], pc := Alert))
      && (r.pc.Alert? ==> q == r.(alerts := if t.provided then r.alerts + 1 else r.alerts, pc := Down))
      && (r.pc.Down? ==> q == Disconnected(r).(pc := Top))
      && (r.pc.Back? ==> q == PassEnded(r))
  {
  }

  /** What follows a network error, and the end of a pass. */
  lemma TickLeaves(s: State, t: Tick, r: State)
    requires Proper(t) && r == Exec(s, t.others) && (s.pc.Flush? || s.pc.Alert? || s.pc.Down? || s.pc.Back?)
    ensures r.pc == s.pc
    ensures var q := Ticked(s, t);
      && (s.pc.Flush? ==> q == r.(table := [], pc := Alert))
      && (s.pc.Alert? ==> var p := r.(alerts := if t.provided then r.alerts + 1 else r.alerts, pc := Down);
            q == (if t.provided then Exec(p, t.inside) else p) && q.pc.Down?)
      && (s.pc.Down? ==> q == Disconnected(r).(pc := Top))
      && (s.pc.Back? ==> q == PassEnded(r))
  {
    TickFrom(s, t, r);
    DownIs(r, t);
    OthersMove(r.(alerts := if t.provided then r.alerts + 1 else r.alerts, pc := Down), t.inside);
  }

  lemma LoopIs(r: State, t: Tick)
    requires r.pc.Top? || r.pc.Drain?
    ensures SchedNext(r, Chosen(r.pc, t)) ==
      if r.pc.Drain? then Drained(r)
      else if r.stop then r.(pc := Drain)
      else r.(pc := Pop, pass := Pass(r.jobs, [], [], []))
  {
  }

  lemma TickLoops(s: State, t: Tick, r: State)
    requires Proper(t) && r == Exec(s, t.others) && (s.pc.Top? || s.pc.Drain?)
    ensures r.pc == s.pc
    ensures Ticked(s, t) == if s.pc.Drain? then Drained(r) else if r.stop then r.(pc := Drain)
                            else r.(pc := Pop, pass := Pass(r.jobs, [], [], []))
  {
    TickFrom(s, t, r);
    LoopIs(r, t);
  }

  // ------------------------------------------------------------------ histories

  /** The states `h` are those of the scheduler thread turn by turn, each turn as `o` has it. */
  ghost predicate Follows(h: nat -> State, o: nat -> Tick) {
    forall j: nat :: TurnsAt(h, o, j)
  }

  ghost predicate TurnsAt(h: nat -> State, o: nat -> Tick, j: nat) {
    Proper(o(j)) && h(j + 1) == Ticked(h(j), o(j))
  }

  function History(s: State, o: nat -> Tick): nat -> State {
    (k: nat) => TickRun(s, o, k)
  }

  lemma HistoryFollows(s: State, o: nat -> Tick)
    requires forall i :: Proper(o(i))
    ensures Follows(History(s, o), o)
  {
  }

  lemma {:induction false} HistoryIsRun(h: nat -> State, o: nat -> Tick, i: nat, k: nat) returns (acts: seq<Action>)
    requires Follows(h, o) && i <= k
    ensures h(k) == Exec(h(i), acts)
    decreases k
  {
    acts := [];
    if i < k {
      var a := HistoryIsRun(h, o, i, k - 1);
      var b := TickIsRun(h(k - 1), o(k - 1));
      assert TurnsAt(h, o, k - 1);
      ExecAdd(h(i), a, b);
      acts := a + b;
    }
  }

  lemma HistoryInv(h: nat -> State, o: nat -> Tick, i: nat, k: nat)
    requires Follows(h, o) && Inv(h(i)) && i <= k
    ensures Inv(h(k))
  {
    var acts := HistoryIsRun(h, o, i, k);
    RunInv(h(i), acts);
  }

  lemma ReachedOn(h: nat -> State, o: nat -> Tick, i: nat, k: nat)
    requires Follows(h, o) && Reachable(h(i)) && i <= k
    ensures Reachable(h(k))
  {
    var a :| h(i) == Exec(Start(), a);
    var b := HistoryIsRun(h, o, i, k);
    ExecAdd(Start(), a, b);
  }

  lemma LoopTurn(h: nat -> State, o: nat -> Tick, k: nat, r: State)
    requires Follows(h, o) && (h(k).pc.Top? || h(k).pc.Drain?) && r == Exec(h(k), o(k).others)
    ensures Proper(o(k)) && r.pc == h(k).pc
    ensures h(k + 1) == if r.pc.Drain? then Drained(r) else if r.stop then r.(pc := Drain)
                        else r.(pc := Pop, pass := Pass(r.jobs, [], [], []))
  {
    assert TurnsAt(h, o, k);
    TickLoops(h(k), o(k), r);
  }

  /** A network error was settled in the turn before `k`. */
  ghost predicate ErrorBefore(h: nat -> State, k: nat) {
    0 < k && h(k - 1).pc.Settle? && h(k - 1).pc.op.NetError?
  }

  /** A pass has just begun. */
  predicate Begun(s: State) {
    s.pc.Pop? && s.pass == Pass(s.jobs, [], [], [])
  }
}
