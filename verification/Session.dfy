/** What belongs to one connection: Hello tasks and sequence numbers. */
module Session {
  import opened Clock
  import opened Tasks
  import opened Machine
  import opened Shapes
  import opened Framing
  import opened Conservation
  import opened Books

  /** The Hello tasks the scheduler has, wherever they are. */
  function LiveHellos(s: State): nat {
    Hellos(s.jobs) + Hellos(s.todo) + Hellos(Flight(s.pc))
  }

  /** Hello tasks are made to go round for ever. */
  ghost predicate HellosPeriodic(l: seq<Record>) {
    forall i | 0 <= i < |l| :: l[i].made.kind == Hello ==> l[i].made.resch == -1
  }

  /** One Hello task for every successful `net_connected` since the last dump: they never end by
      themselves, and reconnecting does not replace the old one. */
  ghost predicate HelloOk(s: State) {
    HellosPeriodic(s.ledger) && LiveHellos(s) == s.hellos && (s.npc.Armed? ==> s.npc.kind != Hello)
  }

  /** The numbers handed to `net_send` since the last reset are 0, 1, 2, ... modulo 2^32. */
  ghost predicate SeqOk(net: Net) {
    && net.nextSeq == |net.handed| % UINT32
    && forall i | 0 <= i < |net.handed| :: net.handed[i] == i % UINT32
  }

  lemma HelloOne(t: Task)
    ensures Hellos([t]) == if t.kind == Hello then 1 else 0
  {
  }

  lemma {:induction false} ReverseHellos(ts: seq<Task>)
    ensures Hellos(Reverse(ts)) == Hellos(ts)
  {
    if ts != [] {
      ReverseHellos(ts[1..]);
      HellosAdd(Reverse(ts[1..]), [ts[0]]);
      HelloOne(ts[0]);
    }
  }

  lemma AddHello(s: State, t: Task, owned: bool)
    requires HelloOk(s) && (t.kind == Hello ==> t.resch == -1)
    ensures HellosPeriodic(AddTask(s, t, owned).ledger)
    ensures LiveHellos(AddTask(s, t, owned)) == s.hellos + if t.kind == Hello && !s.stop then 1 else 0
  {
    var u := t.(serial := |s.ledger|);
    HellosAdd(s.jobs, [u]);
    HelloOne(u);
  }

  lemma PopHello(s: State)
    requires HelloOk(s) && Flight(s.pc) == []
    ensures HelloOk(Popped(s)) && HelloOk(PassEnded(s))
  {
    MovedBackIs(s.todo, s.jobs);
    HellosAdd(Reverse(s.todo), s.jobs);
    ReverseHellos(s.todo);
    if s.jobs != [] {
      HelloOne(s.jobs[0]);
    }
  }

  lemma DumpHello(s: State, t: Task)
    requires HelloOk(s)
    ensures HelloOk(Dumped(s, t)) && HelloOk(Drained(s))
  {
  }

  lemma SettleHello(s: State, t: Task, now: Timespec, op: Outcome)
    requires HelloOk(s) && BooksKept(s) && s.pc == Settle(t, now, op)
    ensures HelloOk(Settled(s, t, now, op))
  {
    assert t in Flight(s.pc) && Booked(s.ledger, t, Due(s.pc));
    HelloOne(t);
    HelloOne(Restamped(t, now));
    HellosAdd([t], s.todo);
    HellosAdd([Restamped(t, now)], s.todo);
    if op == NetError {
      DumpHello(s, t);
    }
  }

  lemma GreetHello(s: State, a: Action)
    requires HelloOk(s) && a.Greet?
    ensures HelloOk(Next(s, a))
  {
    AddHello(s, HelloTask(a.at), true);
  }

  lemma OtherHello(s: State, a: Action)
    requires HelloOk(s) && !BySched(a) && !a.Greet?
    ensures HelloOk(Next(s, a))
  {
    match a
    case Launch(at) =>
      if s.npc.Armed? {
        AddHello(s, TriggerTask(s.npc.kind, s.npc.trigger, at), false);
      }
    case Request(kind, elapse, at) =>
      if Requested(kind) {
        AddHello(s, RequestTask(kind, elapse, at), false);
      }
    case Submit(size, at) => AddHello(s, SendTask(size, at), false);
    case _ =>
  }

  lemma JobHello(s: State, a: Action)
    requires HelloOk(s) && BooksKept(s) && a.SettleJob?
    ensures HelloOk(Next(s, a))
  {
    if s.pc.Settle? {
      SettleHello(s, s.pc.task, s.pc.now, s.pc.op);
    }
  }

  lemma QueueHello(s: State, a: Action)
    requires HelloOk(s) && (a.PopJob? || a.MoveBack? || a.FinalDrain?)
    ensures HelloOk(Next(s, a))
  {
    if a.FinalDrain? {
      DumpHello(s, Task(0, Invalid, 0, 0, 0, 0, Timespec(0, 0)));
    } else if Flight(s.pc) == [] {
      PopHello(s);
    }
  }

  /** The turn steps leave the Hello count alone. */
  lemma TurnHello(s: State, a: Action)
    requires HelloOk(s) && MovesNothing(a)
    ensures HelloOk(SchedNext(s, a))
  {
    TurnShape(s, a);
  }

  lemma StepHello(s: State, a: Action)
    requires HelloOk(s) && BooksKept(s)
    ensures HelloOk(Next(s, a))
  {
    if a.Greet? {
      GreetHello(s, a);
    } else if !BySched(a) {
      OtherHello(s, a);
    } else if a.SettleJob? {
      JobHello(s, a);
    } else if MovesNothing(a) {
      TurnHello(s, a);
    } else {
      QueueHello(s, a);
    }
  }

  /** One message: it takes the next number and leaves the count in step, unless it is too long. */
  lemma SendSeq(net: Net, size: nat, sent: bool)
    requires SeqOk(net)
    ensures SeqOk(MsgSent(net, size, sent).0)
    ensures size > EM_BUF_SIZE ==> MsgSent(net, size, sent).0 == net
  {
  }

  lemma StepSeq(s: State, a: Action)
    requires SeqOk(s.net)
    ensures SeqOk(Next(s, a).net)
  {
    if a.Transmit? && s.pc.Perform? {
      var t := s.pc.task;
      SendSeq(s.net, t.size, a.sent);
      if a.blen >= 0 {
        SendSeq(s.net, a.blen, a.sent);
      }
    }
  }
}
