/** A pass of sched_consume keeps the order of the queue. */
module Order {
  import opened Clock
  import opened Tasks
  import opened Machine
  import opened Shapes
  import opened Conservation
  import opened Books

  /** The tasks examined, in order. */
  function Examined(exams: seq<Exam>): (r: seq<Task>)
    ensures |r| == |exams| && forall i | 0 <= i < |r| :: r[i] == exams[i].task
  {
    seq(|exams|, i requires 0 <= i < |exams| => exams[i].task)
  }

  /** What one examination leaves to run again. */
  function Again(e: Exam): seq<Task> {
    match e.op
    case NotElapsed => [e.task]
    case Reschedule => [Restamped(e.task, e.now)]
    case _ => []
  }

  /** The tasks retained, in the order they were examined. */
  function Kept(exams: seq<Exam>): seq<Task>
    decreases |exams|
  {
    if exams == [] then [] else Kept(exams[..|exams| - 1]) + Again(exams[|exams| - 1])
  }

  /** The verdict the task deserved: a task leaves the queue only when it has run its last. */
  predicate Fair(e: Exam) {
    match e.op
    case NotElapsed => !Elapsed(e.task.issued, e.now, e.task.elapse)
    case Reschedule => Elapsed(e.task.issued, e.now, e.task.elapse) && e.task.resch != 0
    case Consumed => Elapsed(e.task.issued, e.now, e.task.elapse) && e.task.resch == 0
    case NetError => false
  }

  /** Where the tasks of the current pass are: the queue at its start and what came since are the
      tasks examined, the one in hand and the rest, in this order; what is kept waits in `todo`,
      last first. Outside a pass `todo` is empty. */
  ghost predicate PassOk(s: State) {
    var p := s.pass;
    if Draining(s.pc) then
      && p.entry + p.came == Examined(p.exams) + Flight(s.pc) + s.jobs
      && s.todo == Reverse(Kept(p.exams))
      && p.late == []
      && (forall e | e in p.exams :: Fair(e))
    else if s.pc.Back? then
      && p.entry + p.came == Examined(p.exams)
      && s.todo == Reverse(Kept(p.exams))
      && s.jobs == p.late
      && (forall e | e in p.exams :: Fair(e))
    else
      s.todo == [] && (s.pc.Exited? ==> s.jobs == [] && s.stop) && (s.pc.Drain? ==> s.stop)
  }

  /** What a pass without network error amounts to: the tasks retained, in the order they were
      queued, then what came after the queue was found empty. Each task queued in between was
      examined once, in order, and fairly. */
  lemma PassKeepsOrder(s: State)
    requires PassOk(s) && s.pc.Back?
    ensures var r := PassEnded(s);
      && r.todo == [] && r.jobs == Kept(s.pass.exams) + s.pass.late
      && Examined(s.pass.exams) == s.pass.entry + s.pass.came
      && forall e | e in s.pass.exams :: Fair(e)
  {
    MovedBackIs(s.todo, s.jobs);
    ReverseTwice(Kept(s.pass.exams));
  }

  lemma LoopOrder(s: State)
    requires PassOk(s)
    ensures PassOk(SchedNext(s, Loop))
  {
  }

  lemma PopOrder(s: State)
    requires PassOk(s) && s.pc.Pop?
    ensures PassOk(Popped(s))
  {
    var e := Examined(s.pass.exams);
    if s.jobs == [] {
      assert e + [] + [] == e;
    } else {
      assert e + [] + s.jobs == e + [s.jobs[0]] + s.jobs[1..];
    }
  }

  /** The verdict in hand is fair. */
  lemma HandFair(s: State)
    requires BooksKept(s) && s.pc.Settle? && !s.pc.op.NetError?
    ensures Fair(Exam(s.pc.task, s.pc.now, s.pc.op))
  {
    var t := s.pc.task;
    assert t in Flight(s.pc) && Booked(s.ledger, t, Due(s.pc));
    if s.pc.op != NotElapsed {
      var r := s.ledger[t.serial];
      assert Accounted(r);
      assert Elapsed(Stamp(r.made, r.runs, |r.runs| - 1), r.runs[|r.runs| - 1], r.made.elapse);
    }
  }

  lemma SettleOrder(s: State, t: Task, now: Timespec, op: Outcome)
    requires PassOk(s) && s.pc == Settle(t, now, op) && (!op.NetError? ==> Fair(Exam(t, now, op)))
    ensures PassOk(Settled(s, t, now, op))
  {
    var x := Exam(t, now, op);
    var exams := s.pass.exams + [x];
    assert exams[..|exams| - 1] == s.pass.exams;
    assert Examined(exams) == Examined(s.pass.exams) + [t];
    assert Examined(exams) + [] == Examined(exams);
    if op == NotElapsed {
      ReverseAppend(Kept(s.pass.exams), t);
    } else if op == Reschedule {
      ReverseAppend(Kept(s.pass.exams), Restamped(t, now));
    } else if op == Consumed {
      assert Kept(exams) == Kept(s.pass.exams);
    }
  }

  lemma AddOrder(s: State, t: Task, owned: bool)
    requires PassOk(s)
    ensures PassOk(AddTask(s, t, owned))
  {
    var u := t.(serial := |s.ledger|);
    var p := s.pass;
    assert p.entry + (p.came + [u]) == p.entry + p.came + [u];
    assert Examined(p.exams) + Flight(s.pc) + (s.jobs + [u]) == Examined(p.exams) + Flight(s.pc) + s.jobs + [u];
  }

  lemma StepOrder(s: State, a: Action)
    requires PassOk(s) && BooksKept(s)
    ensures PassOk(Next(s, a))
  {
    if !BySched(a) {
      OtherStep(s, a);
      forall t, owned ensures PassOk(AddTask(s, t, owned)) {
        AddOrder(s, t, owned);
      }
    } else if a.SettleJob? && s.pc.Settle? {
      if !s.pc.op.NetError? {
        HandFair(s);
      }
      SettleOrder(s, s.pc.task, s.pc.now, s.pc.op);
    } else if a.PopJob? && s.pc.Pop? {
      PopOrder(s);
    } else if a.Loop? {
      LoopOrder(s);
    } else if !a.SettleJob? && !a.PopJob? {
      SchedOrder(s, a);
    }
  }

  lemma SchedOrder(s: State, a: Action)
    requires PassOk(s) && BySched(a) && !a.SettleJob? && !a.PopJob? && !a.Loop?
    ensures PassOk(SchedNext(s, a))
  {
    if !a.MoveBack? && !a.FinalDrain? {
      TurnShape(s, a);
    }
  }
}
