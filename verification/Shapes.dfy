/** What each step of the machine may change, and what it leaves alone. */
module Shapes {
  import opened Clock
  import opened Tasks
  import opened Triggers
  import opened Machine

  // ------------------------------------------------- between critical sections

  /** The steps of the scheduler thread that move no task. */
  predicate MovesNothing(a: Action) {
    a.Loop? || a.ReadClock? || a.Transmit? || a.Plain? || a.Lookup? || a.Callback?
    || a.FlushTriggers? || a.AlertWrapper? || a.MarkDown?
  }

  lemma JudgedShape(s: State, t: Task, now: Timespec)
    requires s.pc == Judge(t)
    ensures var r := Judged(s, t, now);
      && r == s.(pc := r.pc, ledger := r.ledger) && Flight(r.pc) == [t]
      && |r.ledger| == |s.ledger|
      && forall i | 0 <= i < |s.ledger| :: r.ledger[i].made == s.ledger[i].made && r.ledger[i].fate == s.ledger[i].fate
  {
  }

  lemma TransmittedShape(s: State, t: Task, now: Timespec, blen: int, sent: bool)
    requires s.pc == Perform(t, now)
    ensures var r := Transmitted(s, t, now, blen, sent); r == s.(pc := r.pc, net := r.net) && Flight(r.pc) == [t]
  {
  }

  lemma PlainlyShape(s: State, t: Task, now: Timespec, called: bool, mod: int)
    requires s.pc == Perform(t, now)
    ensures var r := Plainly(s, t, now, called, mod);
      r == s.(pc := r.pc, calls := r.calls) && s.calls <= r.calls && Flight(r.pc) == [t]
  {
  }

  lemma LookedUpShape(s: State, t: Task, now: Timespec, provided: bool, count: nat)
    requires s.pc == Perform(t, now)
    ensures var r := LookedUp(s, t, now, provided, count); r == s.(pc := r.pc) && Flight(r.pc) == [t]
  {
  }

  lemma CalledBackShape(s: State, t: Task, now: Timespec, g: Trigger, left: nat)
    requires s.pc == Calling(t, now, g, left)
    ensures var r := CalledBack(s, t, now, g, left);
      r == s.(pc := r.pc, calls := r.calls) && s.calls <= r.calls && Flight(r.pc) == [t]
  {
  }

  /** Neither begins or ends a pass, nor the loop. */
  predicate SamePlace(p: Pc, q: Pc) {
    (p.Pop? <==> q.Pop?) && (p.Back? <==> q.Back?) && (p.Drain? <==> q.Drain?) && (p.Exited? <==> q.Exited?)
  }

  /** The steps that perform a task change at most the records of runs, the network fields and the calls. */
  lemma PerformShape(s: State, a: Action)
    requires a.ReadClock? || a.Transmit? || a.Plain? || a.Lookup? || a.Callback?
    ensures var r := SchedNext(s, a);
      && r == s.(pc := r.pc, ledger := r.ledger, net := r.net, calls := r.calls)
      && Flight(r.pc) == Flight(s.pc) && SamePlace(s.pc, r.pc) && s.calls <= r.calls
      && |r.ledger| == |s.ledger|
      && forall i | 0 <= i < |s.ledger| :: r.ledger[i].made == s.ledger[i].made && r.ledger[i].fate == s.ledger[i].fate
  {
    match a
    case ReadClock(now) =>
      if s.pc.Judge? {
        JudgedShape(s, s.pc.task, now);
      }
    case Transmit(blen, sent) =>
      if s.pc.Perform? {
        TransmittedShape(s, s.pc.task, s.pc.now, blen, sent);
      }
    case Plain(called, mod) =>
      if s.pc.Perform? {
        PlainlyShape(s, s.pc.task, s.pc.now, called, mod);
      }
    case Lookup(provided, count) =>
      if s.pc.Perform? {
        LookedUpShape(s, s.pc.task, s.pc.now, provided, count);
      }
    case Callback =>
      if s.pc.Calling? {
        CalledBackShape(s, s.pc.task, s.pc.now, s.pc.trigger, s.pc.left);
      }
  }

  lemma IdleShape(s: State, a: Action)
    requires a.Loop? || a.FlushTriggers? || a.AlertWrapper? || a.MarkDown?
    ensures var r := SchedNext(s, a);
      && r == s.(pc := r.pc, net := r.net, alerts := r.alerts, table := r.table, pass := r.pass)
      && Flight(r.pc) == Flight(s.pc) && (r.table == s.table || r.table == [])
      && (!a.Loop? ==> r.pass == s.pass && SamePlace(s.pc, r.pc))
      && (a.Loop? ==> s.pc.Top? || r == s)
  {
  }

  /** Such a step changes at most the records of runs, the network fields, the callbacks, the signals, the
      trigger table and the pass: no task moves. */
  lemma TurnShape(s: State, a: Action)
    requires MovesNothing(a)
    ensures var r := SchedNext(s, a);
      && r == s.(pc := r.pc, ledger := r.ledger, net := r.net, calls := r.calls, alerts := r.alerts,
                 table := r.table, pass := r.pass)
      && Flight(r.pc) == Flight(s.pc) && s.calls <= r.calls && (r.table == s.table || r.table == [])
      && (!a.Loop? ==> r.pass == s.pass && SamePlace(s.pc, r.pc))
      && (a.Loop? ==> s.pc.Top? || r == s)
      && |r.ledger| == |s.ledger|
      && forall i | 0 <= i < |s.ledger| :: r.ledger[i].made == s.ledger[i].made && r.ledger[i].fate == s.ledger[i].fate
  {
    if a.Loop? || a.FlushTriggers? || a.AlertWrapper? || a.MarkDown? {
      IdleShape(s, a);
    } else {
      PerformShape(s, a);
    }
  }

  // ------------------------------------------------------- critical sections

  lemma SettledShape(s: State, t: Task, now: Timespec, op: Outcome)
    ensures var r := Settled(s, t, now, op);
      && r == s.(jobs := r.jobs, todo := r.todo, pc := r.pc, pass := r.pass, ledger := r.ledger, freed := r.freed,
                 hellos := r.hellos)
      && r.pass == s.pass.(exams := r.pass.exams)
      && |r.ledger| == |s.ledger| && (forall i | 0 <= i < |s.ledger| :: r.ledger[i].made == s.ledger[i].made)
      && r.pc == if op == NetError then Flush else Pop
  {
  }

  /** The critical sections of the scheduler thread change at most the queues, and what is recorded. */
  lemma SectionShape(s: State, a: Action)
    requires a.PopJob? || a.MoveBack? || a.SettleJob? || a.FinalDrain?
    ensures var r := SchedNext(s, a);
      && r == s.(jobs := r.jobs, todo := r.todo, pc := r.pc, pass := r.pass, ledger := r.ledger, freed := r.freed,
                 hellos := r.hellos)
      && r.pass == s.pass.(exams := r.pass.exams)
      && |r.ledger| == |s.ledger| && (forall i | 0 <= i < |s.ledger| :: r.ledger[i].made == s.ledger[i].made)
      && (s.pc.Exited? ==> r == s)
  {
    if a.SettleJob? && s.pc.Settle? {
      SettledShape(s, s.pc.task, s.pc.now, s.pc.op);
    }
  }

  /** No step of the scheduler thread touches what belongs to the others, or gives up what is made. */
  lemma SchedShape(s: State, a: Action)
    requires BySched(a)
    ensures var r := SchedNext(s, a);
      && r.stop == s.stop && r.next == s.next && r.npc == s.npc && r.minted == s.minted && r.leaked == s.leaked
      && s.calls <= r.calls && (r.table == s.table || r.table == [])
      && |r.ledger| == |s.ledger| && (forall i | 0 <= i < |s.ledger| :: r.ledger[i].made == s.ledger[i].made)
      && (s.pc.Exited? ==> r.pc.Exited?)
      && (!s.pc.Top? ==> r.pass.entry == s.pass.entry)
  {
    if MovesNothing(a) {
      TurnShape(s, a);
    } else {
      SectionShape(s, a);
    }
  }

  // ------------------------------------------------------------ other threads

  lemma AddedShape(s: State, t: Task, owned: bool)
    ensures var r := AddTask(s, t, owned);
      && r == s.(jobs := r.jobs, ledger := r.ledger, pass := r.pass, freed := r.freed, leaked := r.leaked)
      && r.pass == s.pass.(came := r.pass.came, late := r.pass.late)
      && r.ledger == s.ledger + [Record(t.(serial := |s.ledger|), [], if s.stop then Refused else Alive)]
      && r.jobs == if s.stop then s.jobs else s.jobs + [t.(serial := |s.ledger|)]
  {
  }

  lemma AddsShape(s: State, a: Action)
    requires a.Greet? || a.Launch? || a.Request?
    ensures var r := NetNext(s, a);
      && r == s.(jobs := r.jobs, ledger := r.ledger, pass := r.pass, freed := r.freed, leaked := r.leaked,
                 npc := r.npc, hellos := r.hellos)
      && r.pass == s.pass.(came := r.pass.came, late := r.pass.late) && s.ledger <= r.ledger
      && (s.stop ==> r.jobs == s.jobs && forall i | |s.ledger| <= i < |r.ledger| :: r.ledger[i].fate.Refused?)
  {
    match a
    case Greet(at) => AddedShape(s, HelloTask(at), true);
    case Launch(at) =>
      if s.npc.Armed? {
        AddedShape(s, TriggerTask(s.npc.kind, s.npc.trigger, at), false);
      }
    case Request(kind, elapse, at) => AddedShape(s, RequestTask(kind, elapse, at), false);
  }

  lemma LinkShape(s: State, a: Action)
    requires !BySched(a) && !ByApi(a) && !a.Greet? && !a.Launch? && !a.Request?
    ensures var r := NetNext(s, a);
      && r == s.(table := r.table, next := r.next, minted := r.minted, npc := r.npc, net := r.net)
      && s.minted <= r.minted && s.next <= r.next
  {
  }

  lemma ApiShape(s: State, a: Action)
    requires ByApi(a)
    ensures var r := ApiNext(s, a);
      && r == s.(jobs := r.jobs, ledger := r.ledger, pass := r.pass, freed := r.freed, leaked := r.leaked,
                 table := r.table, stop := r.stop)
      && r.pass == s.pass.(came := r.pass.came, late := r.pass.late)
      && s.ledger <= r.ledger && (s.stop ==> r.stop)
      && (s.stop ==> r.jobs == s.jobs && forall i | |s.ledger| <= i < |r.ledger| :: r.ledger[i].fate.Refused?)
  {
    if a.Submit? {
      AddedShape(s, SendTask(a.size, a.at), false);
    }
  }

  /** No step of the others touches what the scheduler thread is about, or takes back what is made. */
  lemma OtherShape(s: State, a: Action)
    requires !BySched(a)
    ensures var r := Next(s, a);
      && r.pc == s.pc && r.todo == s.todo && r.calls == s.calls && r.alerts == s.alerts
      && r.pass == s.pass.(came := r.pass.came, late := r.pass.late)
      && s.ledger <= r.ledger && s.minted <= r.minted && s.next <= r.next && (s.stop ==> r.stop)
      && (s.stop ==> r.jobs == s.jobs && forall i | |s.ledger| <= i < |r.ledger| :: r.ledger[i].fate.Refused?)
  {
    if ByApi(a) {
      ApiShape(s, a);
    } else if a.Greet? || a.Launch? || a.Request? {
      AddsShape(s, a);
    } else {
      LinkShape(s, a);
    }
  }
}
