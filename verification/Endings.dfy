/** A pass over the queue comes to an end exactly if the other threads stop adding to it, and the loop
    of the scheduler thread once it is told to stop, whatever the others do. */
module Endings {
  import opened Tasks
  import opened Machine
  import opened Shapes
  import opened Turns

  // ------------------------------------------------------------- how much is left

  function Min0(x: int): nat {
    if x < 0 then 0 else x
  }

  function Weight(pc: Pc): nat {
    match pc
    case Top => 0
    case Back => 1
    case Down => 1
    case Alert => 2
    case Judge(t) => if RunsCallback(t.kind) then 5 else 3
    case Perform(t, _) => if RunsCallback(t.kind) then 5 else 3
    case Calling(_, _, _, _) => 4
    case _ => 3
  }

  /** The callbacks still possible in this pass, and the steps that surround them. */
  function Burden(s: State): nat {
    2 * CallbackTasks(s.jobs) + Weight(s.pc)
  }

  function Left(pc: Pc): nat {
    match pc case Calling(_, _, _, left) => left case _ => 0
  }

  function Rank(pc: Pc): nat {
    match pc
    case Pop => 4
    case Judge(_) => 7
    case Perform(_, _) => 6
    case Settle(_, _, _) => 5
    case _ => 3
  }

  predicate InPass(pc: Pc) {
    !pc.Top? && !pc.Drain? && !pc.Exited?
  }

  predicate Lighter(s: State, r: State) {
    || Burden(s) < Burden(r)
    || (Burden(s) == Burden(r) && Left(s.pc) < Left(r.pc))
    || (Burden(s) == Burden(r) && Left(s.pc) == Left(r.pc) && |s.jobs| < |r.jobs|)
    || (Burden(s) == Burden(r) && Left(s.pc) == Left(r.pc) && |s.jobs| == |r.jobs| && Rank(s.pc) < Rank(r.pc))
  }

  lemma PopShrinks(s: State, t: Tick)
    requires s.pc.Pop?
    ensures var q := SchedNext(s, Chosen(s.pc, t)); InPass(q.pc) && Lighter(q, s)
  {
    PopIs(s, t);
  }

  lemma JudgeShrinks(s: State, t: Tick)
    requires s.pc.Judge?
    ensures var q := SchedNext(s, Chosen(s.pc, t)); InPass(q.pc) && Lighter(q, s)
  {
    JudgeIs(s, t);
  }

  lemma SettleShrinks(s: State, t: Tick)
    requires s.pc.Settle?
    ensures var q := SchedNext(s, Chosen(s.pc, t)); InPass(q.pc) && Lighter(q, s)
  {
    SettleIs(s, t);
    SettledIs(s, s.pc.task, s.pc.now, s.pc.op);
  }

  lemma PerformShrinks(s: State, t: Tick)
    requires s.pc.Perform?
    ensures var q := SchedNext(s, Chosen(s.pc, t));
      && InPass(q.pc) && q.jobs == s.jobs && Lighter(q, s)
      && (CallsOut(s.pc, t) ==> Burden(q) < Burden(s))
  {
    PerformIs(s, t, s.pc.task, s.pc.now);
  }

  lemma CallShrinks(s: State, t: Tick)
    requires s.pc.Calling?
    ensures var q := SchedNext(s, Chosen(s.pc, t));
      && InPass(q.pc) && q.jobs == s.jobs
      && (Burden(q) < Burden(s) || (Burden(q) == Burden(s) && Left(q.pc) < Left(s.pc)))
  {
    CallIs(s, t);
  }

  lemma DownShrinks(s: State, t: Tick)
    requires s.pc.Flush? || s.pc.Alert?
    ensures var q := SchedNext(s, Chosen(s.pc, t)); InPass(q.pc) && q.jobs == s.jobs && Burden(q) < Burden(s)
  {
    DownIs(s, t);
  }

  lemma LastEnds(s: State, t: Tick)
    requires s.pc.Down? || s.pc.Back?
    ensures SchedNext(s, Chosen(s.pc, t)).pc.Top?
  {
    DownIs(s, t);
  }

  /** The step of the scheduler thread alone. */
  lemma StepShrinks(s: State, t: Tick)
    requires InPass(s.pc)
    ensures var q := SchedNext(s, Chosen(s.pc, t));
      && (q.pc.Top? || (InPass(q.pc) && Lighter(q, s)))
      && (CallsOut(s.pc, t) ==>
            && q.jobs == s.jobs && InPass(q.pc)
            && (Burden(q) < Burden(s) || (Burden(q) == Burden(s) && Left(q.pc) < Left(s.pc))))
  {
    match s.pc
    case Pop => PopShrinks(s, t);
    case Judge(_) => JudgeShrinks(s, t);
    case Perform(_, _) => PerformShrinks(s, t);
    case Calling(_, _, _, _) => CallShrinks(s, t);
    case Settle(_, _, _) => SettleShrinks(s, t);
    case Flush => DownShrinks(s, t);
    case Alert => DownShrinks(s, t);
    case _ => LastEnds(s, t);
  }

  /** Every turn in which the others add nothing leaves less to do, though callbacks may add tasks: what
      they add runs no callbacks, so it never adds to what callbacks can still add. */
  lemma TickShrinks(s: State, t: Tick)
    requires Proper(t) && InPass(s.pc) && Quiet(s, t)
    ensures var q := Ticked(s, t); q.pc.Top? || (InPass(q.pc) && Lighter(q, s))
  {
    var r := Exec(s, t.others);
    TickFrom(s, t, r);
    StepShrinks(r, t);
    OthersMove(SchedNext(r, Chosen(r.pc, t)), t.inside);
  }

  lemma TickStays(s: State, t: Tick)
    requires Proper(t) && InPass(s.pc)
    ensures Ticked(s, t).pc.Top? || InPass(Ticked(s, t).pc)
  {
    var r := Exec(s, t.others);
    TickFrom(s, t, r);
    StepShrinks(r, t);
    OthersMove(SchedNext(r, Chosen(r.pc, t)), t.inside);
  }

  // ------------------------------------------------------------- when a pass ends

  /** The pass running at turn `k` ends at turn `e`. */
  ghost predicate EndsAt(h: nat -> State, k: nat, e: nat) {
    k <= e && h(e).pc.Top? && forall j: nat | k <= j < e :: InPass(h(j).pc)
  }

  /** The pass running at turn `k` still runs at turn `j`. */
  ghost predicate RunsTo(h: nat -> State, k: nat, j: nat) {
    k <= j && forall i: nat | k <= i <= j :: InPass(h(i).pc)
  }

  /** For as long as the pass running at turn `k` lasts, the other threads add no task from turn `n` on;
      callbacks still may. */
  ghost predicate QuietInPass(h: nat -> State, o: nat -> Tick, k: nat, n: nat) {
    forall j: nat | n <= j && RunsTo(h, k, j) :: Quiet(h(j), o(j))
  }

  lemma NextTurn(h: nat -> State, o: nat -> Tick, k: nat)
    requires Follows(h, o) && InPass(h(k).pc)
    ensures h(k + 1).pc.Top? || InPass(h(k + 1).pc)
    ensures Quiet(h(k), o(k)) ==> h(k + 1).pc.Top? || Lighter(h(k + 1), h(k))
  {
    assert TurnsAt(h, o, k);
    TickStays(h(k), o(k));
    if Quiet(h(k), o(k)) {
      TickShrinks(h(k), o(k));
    }
  }

  /** The pass running since turn `k` has come to turn `j`. */
  lemma {:induction false} PassEnds(h: nat -> State, o: nat -> Tick, n: nat, k: nat, j: nat) returns (e: nat)
    requires Follows(h, o) && QuietInPass(h, o, k, n) && RunsTo(h, k, j)
    ensures EndsAt(h, k, e)
    decreases Min0(n - j), Burden(h(j)), Left(h(j).pc), |h(j).jobs|, Rank(h(j).pc)
  {
    NextTurn(h, o, j);
    e := j + 1;
    if !h(j + 1).pc.Top? {
      e := PassEnds(h, o, n, k, j + 1);
    }
  }

  /** A pass ends if and only if the other threads at some time stop adding to the queue during it.
      Callbacks may go on adding tasks through the API, any number at a time. */
  lemma PassEndsExactly(h: nat -> State, o: nat -> Tick, k: nat)
    requires Follows(h, o) && InPass(h(k).pc)
    ensures (exists e: nat :: EndsAt(h, k, e)) <==> (exists n: nat :: QuietInPass(h, o, k, n))
  {
    if n: nat :| QuietInPass(h, o, k, n) {
      assert RunsTo(h, k, k);
      var e := PassEnds(h, o, n, k, k);
      assert EndsAt(h, k, e);
    }
    if e: nat :| EndsAt(h, k, e) {
      assert QuietInPass(h, o, k, e);
    }
  }

  // --------------------------------------------------------------- one that does not


  /** The loop of `sched_consume` goes on. */
  predicate Busy(s: State) {
    !s.stop && (s.pc.Pop? || s.pc.Judge? || s.pc.Perform? || s.pc.Calling? || (s.pc.Settle? && s.pc.op != NetError))
  }

  lemma BusySubmit(s: State, a: Action)
    requires Busy(s) && a.Submit? && a.size > 0
    ensures Busy(Next(s, a)) && Next(s, a).jobs != [] && Next(s, a).pc == s.pc
  {
  }

  lemma BusyStep(s: State, t: Tick)
    requires Busy(s) && s.jobs != [] && t.sent
    ensures Busy(SchedNext(s, Chosen(s.pc, t)))
  {
  }

  /** It happens, though nothing fails: one task sent through the API before every turn keeps the loop
      going for ever. */
  lemma {:induction false} PassNeedNotEnd(h: nat -> State, o: nat -> Tick, a: Action, k: nat)
    requires Follows(h, o) && Busy(h(0)) && a.Submit? && a.size > 0
    requires forall j: nat :: o(j).others == [a] && o(j).inside == [] && o(j).sent
    ensures Busy(h(k))
  {
    if k > 0 {
      var j := k - 1;
      PassNeedNotEnd(h, o, a, j);
      assert TurnsAt(h, o, j);
      var r := ExecOne(h(j), a);
      BusySubmit(h(j), a);
      TickFrom(h(j), o(j), r);
      BusyStep(r, o(j));
    }
  }

  // ----------------------------------------------------------------- after `stop`

  lemma StopTick(s: State, a: Action)
    ensures s.stop ==> Next(s, a).stop
  {
    if BySched(a) {
      SchedShape(s, a);
    } else {
      OtherShape(s, a);
    }
  }

  lemma {:induction false} StopRuns(s: State, acts: seq<Action>)
    requires s.stop
    ensures Exec(s, acts).stop
    decreases |acts|
  {
    if acts != [] {
      StopRuns(s, acts[..|acts| - 1]);
      StopTick(Exec(s, acts[..|acts| - 1]), acts[|acts| - 1]);
    }
  }

  lemma StopStays(h: nat -> State, o: nat -> Tick, i: nat, k: nat)
    requires Follows(h, o) && h(i).stop && i <= k
    ensures h(k).stop
  {
    var acts := HistoryIsRun(h, o, i, k);
    StopRuns(h(i), acts);
  }

  lemma StopBy(h: nat -> State, o: nat -> Tick, i: nat, k: nat)
    requires Follows(h, o) && h(i).stop
    ensures i <= k + 1 ==> h(k + 1).stop
  {
    if i <= k + 1 {
      StopStays(h, o, i, k + 1);
    }
  }

  /** Once `stop` is up all is quiet: what the other threads ask for is refused. */
  lemma StoppedQuiet(h: nat -> State, o: nat -> Tick, i: nat, k: nat)
    requires Follows(h, o) && h(i).stop
    ensures QuietInPass(h, o, k, i)
  {
    forall j: nat | i <= j && RunsTo(h, k, j) ensures Quiet(h(j), o(j)) {
      StopStays(h, o, i, j);
      assert TurnsAt(h, o, j);
      OthersMove(h(j), o(j).others);
    }
  }

  /** The end of `sched_loop` from the test of `stop` on. */
  lemma LoopExits(h: nat -> State, o: nat -> Tick, k: nat) returns (e: nat)
    requires Follows(h, o) && h(k).stop && (h(k).pc.Top? || h(k).pc.Drain?)
    ensures k <= e <= k + 2 && h(e).pc.Exited?
  {
    assert TurnsAt(h, o, k);
    OthersMove(h(k), o(k).others);
    LoopTurn(h, o, k, Exec(h(k), o(k).others));
    e := k + 1;
    if h(k).pc.Top? {
      assert TurnsAt(h, o, k + 1);
      LoopTurn(h, o, k + 1, Exec(h(k + 1), o(k + 1).others));
      e := k + 2;
    }
  }

  lemma StopEndsPass(h: nat -> State, o: nat -> Tick, i: nat) returns (e: nat)
    requires Follows(h, o) && h(i).stop && InPass(h(i).pc)
    ensures i <= e && h(e).pc.Top? && h(e).stop
  {
    StoppedQuiet(h, o, i, i);
    e := PassEnds(h, o, i, i, i);
    StopStays(h, o, i, e);
  }

  /** Once `stop` is up the scheduler thread exits, whatever the other threads do, adding included: the
      pass that runs ends, and no other begins. */
  lemma StopEndsLoop(h: nat -> State, o: nat -> Tick, i: nat) returns (e: nat)
    requires Follows(h, o) && h(i).stop
    ensures i <= e && h(e).pc.Exited?
  {
    e := i;
    if InPass(h(i).pc) {
      e := StopEndsPass(h, o, i);
    }
    if !h(e).pc.Exited? {
      e := LoopExits(h, o, e);
    }
  }

  // --------------------------------------------------------------- pass by pass

  /** Every pass of the run comes to an end. */
  ghost predicate PassesEnd(h: nat -> State) {
    forall k: nat | Begun(h(k)) :: exists e: nat :: EndsAt(h, k, e)
  }

  /** In every pass the other threads at some time stop adding to the queue. */
  ghost predicate PassesQuiet(h: nat -> State, o: nat -> Tick) {
    forall k: nat | Begun(h(k)) :: exists n: nat :: QuietInPass(h, o, k, n)
  }

  lemma PassesEndExactly(h: nat -> State, o: nat -> Tick)
    requires Follows(h, o)
    ensures PassesEnd(h) <==> PassesQuiet(h, o)
  {
    forall k: nat | Begun(h(k))
      ensures (exists e: nat :: EndsAt(h, k, e)) <==> (exists n: nat :: QuietInPass(h, o, k, n))
    {
      PassEndsExactly(h, o, k);
    }
  }

  /** If the agent is ever stopped, every pass ends, those before included. */
  lemma StoppedPassesQuiet(h: nat -> State, o: nat -> Tick, i: nat)
    requires Follows(h, o) && h(i).stop
    ensures PassesQuiet(h, o)
  {
    forall k: nat | Begun(h(k)) ensures exists n: nat :: QuietInPass(h, o, k, n) {
      StoppedQuiet(h, o, i, k);
    }
  }
}
