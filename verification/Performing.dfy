/** What performing a task comes to, kind by kind: what is sent and called, and how the turn is settled. */
module Performing {
  import opened Clock
  import opened Tasks
  import opened Triggers
  import opened Machine
  import opened Shapes
  import opened Runs
  import opened Theorems
  import opened Turns
  import opened Passes
  import opened Makings

  lemma HandWell(s: State, t: Task)
    requires Reachable(s) && Flight(s.pc) == [t]
    ensures WellMade(t)
  {
    TasksWellMade(s);
    assert t in Flight(s.pc);
  }

  // ----------------------------------------------------------------- messages

  /** The length of the message a task sends: a Hello is formatted on the spot, and `blen` is what that
      answers. */
  function Length(t: Task, blen: int): int {
    if t.kind == Hello then blen else t.size
  }

  predicate Goes(length: int) {
    0 <= length <= 4096
  }

  /** A message that there is and that fits takes the next number and goes to `net_send`, and a network error
      is settled if and only if that fails; otherwise a send is consumed and a Hello goes round again. No
      other step of the scheduler thread does anything. */
  lemma SendsExactly(s: State, a: Action, t: Task, now: Timespec)
    requires Reachable(s) && s.pc == Perform(t, now) && (t.kind == Send || t.kind == Hello) && BySched(a)
    ensures !a.Transmit? ==> Next(s, a) == s
    ensures a.Transmit? ==> var q, goes, n := Next(s, a), Goes(Length(t, a.blen)), s.net.nextSeq;
      && q == s.(net := q.net, pc := q.pc)
      && q.net == (if goes then s.net.(nextSeq := (n + 1) % 0x1_0000_0000, handed := s.net.handed + [n]) else s.net)
      && q.pc == Settle(t, now, if goes && !a.sent then NetError else if t.kind == Hello then Reschedule else Consumed)
  {
    HandWell(s, t);
  }

  /** The same in the midst of other threads. */
  lemma SendTurn(h: nat -> State, o: nat -> Tick, k: nat, t: Task, now: Timespec)
    requires Follows(h, o) && Reachable(h(k)) && h(k).pc == Perform(t, now) && (t.kind == Send || t.kind == Hello)
    ensures h(k + 1).pc ==
      Settle(t, now, if Goes(Length(t, o(k).blen)) && !o(k).sent then NetError
                     else if t.kind == Hello then Reschedule else Consumed)
  {
    assert TurnsAt(h, o, k);
    var r := Exec(h(k), o(k).others);
    TickFrom(h(k), o(k), r);
    HandWell(h(k), t);
    PerformIs(r, o(k), t, now);
  }

  /** A Hello or a message that cannot be sent tears the connection down, and nothing else a send or a Hello
      meets does: see `ClearsAt`. */
  lemma TornDownExactly(h: nat -> State, o: nat -> Tick, k: nat, t: Task, now: Timespec)
    requires Follows(h, o) && Reachable(h(k)) && h(k).pc == Perform(t, now) && (t.kind == Send || t.kind == Hello)
    ensures ClearsAt(h, o, k + 1) <==> 0 <= Length(t, o(k).blen) <= 4096 && !o(k).sent
  {
    SendTurn(h, o, k, t, now);
    if Goes(Length(t, o(k).blen)) && !o(k).sent {
      ErrorClears(h, o, k + 1);
    }
  }

  /** A network error comes of a send or a Hello only. */
  predicate FaultOfSend(pc: Pc) {
    pc.Settle? && pc.op == NetError ==> pc.task.kind == Send || pc.task.kind == Hello
  }

  lemma FaultStep(s: State, a: Action)
    requires FaultOfSend(s.pc)
    ensures FaultOfSend(Next(s, a).pc)
  {
    if !BySched(a) {
      OtherShape(s, a);
    }
  }

  lemma {:induction false} FaultRun(acts: seq<Action>)
    ensures FaultOfSend(Exec(Start(), acts).pc)
    decreases |acts|
  {
    if acts != [] {
      var b := acts[..|acts| - 1];
      FaultRun(b);
      FaultStep(Exec(Start(), b), acts[|acts| - 1]);
    }
  }

  lemma OnlySendsFail(s: State)
    requires Reachable(s) && s.pc.Settle? && s.pc.op == NetError
    ensures s.pc.task.kind == Send || s.pc.task.kind == Hello
  {
    var acts :| s == Exec(Start(), acts);
    FaultRun(acts);
  }

  // ---------------------------------------------------------------- callbacks

  /** The kinds that neither send nor look a trigger up. */
  predicate AsksNothing(t: Task) {
    t.kind == EnbSetup || t.kind == Ho || t.kind == RanSetup || t.kind == RanSlice || t.kind == UeReport
    || (t.kind == CellMeasure && t.trig == 0)
  }

  lemma NothingElse(s: State, a: Action, t: Task, now: Timespec)
    requires s.pc == Perform(t, now) && BySched(a) && AsksNothing(t) && !a.Plain?
    ensures Next(s, a) == s
  {
  }

  /** A task that is neither sent nor looks a trigger up calls back once if its callback is provided and its
      message can be read, naming no trigger, and no module of its own, but for UE reports; only a scheduled
      cell measurement goes round again. No other step of the scheduler thread does anything. */
  lemma CallsOnce(s: State, a: Action, t: Task, now: Timespec)
    requires Reachable(s) && s.pc == Perform(t, now) && BySched(a)
    requires AsksNothing(t)
    ensures !a.Plain? ==> Next(s, a) == s
    ensures a.Plain? ==> var q := Next(s, a);
      && q == s.(calls := q.calls, pc := q.pc)
      && q.calls == s.calls + (if !a.called then []
                               else if t.kind == UeReport then [Call(t.serial, UeReport, 0, t.trig)]
                               else [Call(t.serial, t.kind, a.mod, -1)])
      && q.pc == Settle(t, now, if t.kind == CellMeasure then Reschedule else Consumed)
  {
    HandWell(s, t);
    if !a.Plain? {
      NothingElse(s, a, t, now);
    }
  }

  /** A task of no known type is consumed, or goes round, without a callback. */
  lemma UnknownSilent(s: State, a: Action, t: Task, now: Timespec)
    requires s.pc == Perform(t, now) && t.kind == Invalid && BySched(a)
    ensures !a.Plain? ==> Next(s, a) == s
    ensures a.Plain? ==> Next(s, a) == s.(pc := Settle(t, now, if t.resch == 0 then Consumed else Reschedule))
  {
  }

  lemma {:induction false} OthersCall(s: State, acts: seq<Action>)
    requires forall a | a in acts :: !BySched(a)
    ensures Exec(s, acts).calls == s.calls && Exec(s, acts).pc == s.pc
    decreases |acts|
  {
    if acts != [] {
      var b := acts[..|acts| - 1];
      assert acts == b + [acts[|acts| - 1]];
      OthersCall(s, b);
      OtherShape(Exec(s, b), acts[|acts| - 1]);
    }
  }

  /** One callback for the trigger found, or the end of them. */
  lemma CallTurn(h: nat -> State, o: nat -> Tick, k: nat, t: Task, now: Timespec, g: Trigger, left: nat)
    requires Follows(h, o) && Reachable(h(k)) && h(k).pc == Calling(t, now, g, left) && !Repeats(t)
    ensures h(k + 1).calls == h(k).calls + (if left == 0 then [] else [Call(t.serial, t.kind, g.key.mod, g.id)])
    ensures h(k + 1).pc == if left == 0 then Settle(t, now, Consumed) else Calling(t, now, g, left - 1)
  {
    assert TurnsAt(h, o, k);
    var r := Exec(h(k), o(k).others);
    OthersCall(h(k), o(k).others);
    TickFrom(h(k), o(k), r);
    HandWell(h(k), t);
    CallIs(r, o(k));
    OthersCall(CalledBack(r, t, now, g, left), o(k).inside);
  }

  function Times<X>(x: X, n: nat): (r: seq<X>)
    ensures |r| == n && forall i | 0 <= i < n :: r[i] == x
  {
    seq(n, i => x)
  }

  lemma {:induction false} CallTurns(h: nat -> State, o: nat -> Tick, k: nat, t: Task, now: Timespec, g: Trigger,
                                     left: nat, e: nat)
    requires Follows(h, o) && Reachable(h(k)) && h(k).pc == Calling(t, now, g, left) && !Repeats(t)
    requires e == k + left + 1
    ensures h(e).calls == h(k).calls + Times(Call(t.serial, t.kind, g.key.mod, g.id), left)
    ensures h(e).pc == Settle(t, now, Consumed)
    decreases left
  {
    CallTurn(h, o, k, t, now, g, left);
    if left > 0 {
      ReachedOn(h, o, k, k + 1);
      CallTurns(h, o, k + 1, t, now, g, left - 1, e);
    }
  }

  /** The trigger table the search meets: that of turn `k` once the others have had theirs. */
  function TableMet(h: nat -> State, o: nat -> Tick, k: nat): seq<Trigger> {
    Exec(h(k), o(k).others).table
  }

  /** How many callbacks the message of the trigger asks for: at most one for a cell. */
  function Wanted(t: Task, count: nat): nat {
    if t.kind == UeMeasure || count == 0 then count else 1
  }

  /** The turn in which the trigger is looked up. */
  lemma LookupTurn(h: nat -> State, o: nat -> Tick, k: nat, t: Task, now: Timespec)
    requires Follows(h, o) && Reachable(h(k)) && h(k).pc == Perform(t, now)
    requires t.kind == UeMeasure || (t.kind == CellMeasure && t.trig > 0)
    ensures h(k + 1).calls == h(k).calls
    ensures !o(k).provided || Absent(TableMet(h, o, k), t.trig) ==> h(k + 1).pc == Settle(t, now, Consumed)
    ensures o(k).provided ==> forall g | g in TableMet(h, o, k) && g.id == t.trig ::
      h(k + 1).pc == Calling(t, now, g, Wanted(t, o(k).count))
  {
    assert TurnsAt(h, o, k);
    var r := Exec(h(k), o(k).others);
    OthersCall(h(k), o(k).others);
    TickFrom(h(k), o(k), r);
    HandWell(h(k), t);
    PerformIs(r, o(k), t, now);
    Looked(h(k), o(k), r);
    FoundIs(r, t.trig);
  }

  lemma Looked(s: State, t: Tick, r: State)
    requires Reachable(s) && Proper(t) && r == Exec(s, t.others)
    ensures Reachable(r)
  {
    var a :| s == Exec(Start(), a);
    ExecAdd(Start(), a, t.others);
  }

  lemma FoundIs(s: State, id: int)
    requires Reachable(s)
    ensures var k := First(s.table, HasId(id));
      && (k == |s.table| <==> Absent(s.table, id))
      && forall g | g in s.table && g.id == id :: k < |s.table| && s.table[k] == g
  {
    TableInOrder(s);
    FirstIs(s.table, HasId(id), First(s.table, HasId(id)));
  }

  /** A task that looks its trigger up makes no callback if that is gone, or the callback not provided: it is
      consumed silently. */
  lemma GoneIsSilent(h: nat -> State, o: nat -> Tick, k: nat, t: Task, now: Timespec)
    requires Follows(h, o) && Reachable(h(k)) && h(k).pc == Perform(t, now)
    requires t.kind == UeMeasure || (t.kind == CellMeasure && t.trig > 0)
    requires !o(k).provided || Absent(TableMet(h, o, k), t.trig)
    ensures h(k + 1).calls == h(k).calls && h(k + 1).pc == Settle(t, now, Consumed)
  {
    LookupTurn(h, o, k, t, now);
  }

  /** Otherwise it calls back exactly as often as asked, for a cell at most once, each time with the id and the
      module of its own trigger, and is then consumed, whatever happens meanwhile. */
  lemma MeasuresExactly(h: nat -> State, o: nat -> Tick, k: nat, t: Task, now: Timespec, g: Trigger, n: nat)
    requires Follows(h, o) && Reachable(h(k)) && h(k).pc == Perform(t, now)
    requires t.kind == UeMeasure || (t.kind == CellMeasure && t.trig > 0)
    requires o(k).provided && g in TableMet(h, o, k) && g.id == t.trig
    requires n == if t.kind == UeMeasure || o(k).count == 0 then o(k).count else 1
    ensures h(k + n + 2).calls == h(k).calls + Times(Call(t.serial, t.kind, g.key.mod, g.id), n)
    ensures h(k + n + 2).pc == Settle(t, now, Consumed)
  {
    LookupTurn(h, o, k, t, now);
    ReachedOn(h, o, k, k + 1);
    CallTurns(h, o, k + 1, t, now, g, n, k + n + 2);
  }
}
