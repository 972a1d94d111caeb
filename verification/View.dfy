/** What the contexts in memory show of a state of the machine: all but its history and the places of
    the threads. */
module View {
  import opened Clock
  import opened EmList
  import opened Tasks
  import opened Triggers
  import opened Machine
  import opened Scheduler
  import opened Framing
  import opened Turns

  datatype Shared = Shared(
    jobs: seq<Task>, todo: seq<Task>, stop: bool, freed: seq<nat>, table: seq<Trigger>, next: int,
    up: bool, nextSeq: nat, npc: NetPc, calls: seq<Call>, alerts: nat, made: nat)

  function Seen(m: State): Shared {
    Shared(m.jobs, m.todo, m.stop, m.freed, m.table, m.next, m.net.up, m.net.nextSeq, m.npc, m.calls, m.alerts,
           |m.ledger|)
  }

  // ------------------------------------------------------ the other threads

  /** `task_alloc` and `sched_add_task`; a refused task is freed only if it is `owned`. */
  function Enqueued(v: Shared, t: Task, owned: bool): Shared {
    var u := t.(serial := v.made);
    v.(made := v.made + 1,
       jobs := if v.stop then v.jobs else v.jobs + [u],
       freed := if v.stop && owned then v.freed + [u.serial] else v.freed)
  }

  /** `trig_add` for a request. */
  function Armed(v: Shared, kind: Kind, key: Key, msg: Bytes): Shared {
    var g := Trigger(v.next, key, msg);
    v.(table := [g] + v.table, next := v.next + 1, npc := NetPc.Armed(kind, g))
  }

  /** What a step of the network thread or of the API does to the contexts. */
  function Foreign(v: Shared, a: Action): Shared {
    match a
    case Submit(size, at) => if size == 0 then v else Enqueued(v, SendTask(size, at), false)
    case DelTrigger(id) => v.(table := RemoveFirst(v.table, HasId(id)))
    case RaiseStop => v.(stop := true)
    case Connect => if v.npc.Idle? && !v.up then v.(npc := Joined) else v
    case Greet(at) =>
      if v.npc.Joined? then Enqueued(v, HelloTask(at), true).(npc := if v.stop then Spurned else Greeted) else v
    case MarkUp => if v.npc.Greeted? then v.(up := true, npc := Idle) else v
    case Hangup => if v.npc.Idle? || v.npc.Spurned? then v.(up := false, nextSeq := 0, npc := Idle) else v
    case Arm(kind, mod, instance, msg) =>
      if v.npc.Idle? && Triggered(kind) && v.next < INT_MAX then Armed(v, kind, ArmKey(kind, mod, instance), msg) else v
    case Launch(at) =>
      if v.npc.Armed? then Enqueued(v, TriggerTask(v.npc.kind, v.npc.trigger, at), false).(npc := Idle) else v
    case Disarm =>
      if v.npc.Armed? then v.(table := RemoveFirst(v.table, HasId(v.npc.trigger.id)), npc := Idle) else v
    case Disown(kind, mod, instance) =>
      if v.npc.Idle? && Triggered(kind) then v.(table := RemoveFirst(v.table, HasKey(DisownKey(kind, mod, instance))))
      else v
    case Request(kind, elapse, at) =>
      if v.npc.Idle? && Requested(kind) then Enqueued(v, RequestTask(kind, elapse, at), false) else v
    case _ => v
  }

  function Foreigns(v: Shared, acts: seq<Action>): Shared
    decreases |acts|
  {
    if acts == [] then v else Foreign(Foreigns(v, acts[..|acts| - 1]), acts[|acts| - 1])
  }

  lemma SeenAdded(m: State, t: Task, owned: bool)
    ensures Seen(AddTask(m, t, owned)) == Enqueued(Seen(m), t, owned)
  {
  }

  lemma SeenNet(m: State, a: Action)
    requires !BySched(a) && !ByApi(a)
    ensures Seen(NetNext(m, a)) == Foreign(Seen(m), a)
  {
    match a
    case Greet(at) => SeenAdded(m, HelloTask(at), true);
    case Launch(at) =>
      if m.npc.Armed? {
        SeenAdded(m, TriggerTask(m.npc.kind, m.npc.trigger, at), false);
      }
    case Request(kind, elapse, at) => SeenAdded(m, RequestTask(kind, elapse, at), false);
    case _ =>
  }

  lemma SeenApi(m: State, a: Action)
    requires ByApi(a)
    ensures Seen(ApiNext(m, a)) == Foreign(Seen(m), a)
  {
    if a.Submit? {
      SeenAdded(m, SendTask(a.size, a.at), false);
    }
  }

  /** The step of the machine is what the contexts show of it. */
  lemma SeenForeign(m: State, a: Action)
    requires !BySched(a)
    ensures Seen(Next(m, a)) == Foreign(Seen(m), a)
  {
    if ByApi(a) {
      SeenApi(m, a);
    } else {
      SeenNet(m, a);
    }
  }

  lemma {:induction false} SeenForeigns(m: State, acts: seq<Action>)
    requires forall a | a in acts :: !BySched(a)
    ensures Seen(Exec(m, acts)) == Foreigns(Seen(m), acts)
    decreases |acts|
  {
    if acts != [] {
      var b, a := acts[..|acts| - 1], acts[|acts| - 1];
      assert acts == b + [a];
      SeenForeigns(m, b);
      SeenForeign(Exec(m, b), a);
    }
  }

  // ----------------------------------------------------- the scheduler thread

  /** What the contexts are when the others have had their turn `k`. */
  function Meanwhile(h: nat -> State, o: nat -> Tick, k: nat): Shared {
    Foreigns(Seen(h(k)), o(k).others)
  }

  /** What remains to be done once the others have: a step that runs no callback. */
  lemma SeenTurn(h: nat -> State, o: nat -> Tick, k: nat) returns (r: State)
    requires Follows(h, o)
    ensures Proper(o(k)) && r.pc == h(k).pc && Seen(r) == Meanwhile(h, o, k)
    ensures var q := SchedNext(r, Chosen(r.pc, o(k)));
      h(k + 1) == if CallsOut(r.pc, o(k)) then Exec(q, o(k).inside) else q
  {
    assert TurnsAt(h, o, k);
    r := Exec(h(k), o(k).others);
    TickFrom(h(k), o(k), r);
    SeenForeigns(h(k), o(k).others);
  }

  /** What a callback does through the API. */
  lemma SeenInside(q: State, t: Tick)
    requires Proper(t)
    ensures Seen(Exec(q, t.inside)) == Foreigns(Seen(q), t.inside) && Exec(q, t.inside).pc == q.pc
  {
    SeenForeigns(q, t.inside);
    OthersMove(q, t.inside);
  }

  lemma PopSeen(h: nat -> State, o: nat -> Tick, k: nat)
    requires Follows(h, o) && h(k).pc.Pop?
    ensures var v := Meanwhile(h, o, k);
      if v.jobs == [] then h(k + 1).pc.Back? && Seen(h(k + 1)) == v
      else h(k + 1).pc == Judge(v.jobs[0]) && Seen(h(k + 1)) == v.(jobs := v.jobs[1..])
  {
    var r := SeenTurn(h, o, k);
    PopIs(r, o(k));
  }

  lemma JudgeSeen(h: nat -> State, o: nat -> Tick, k: nat, t: Task)
    requires Follows(h, o) && h(k).pc == Judge(t)
    ensures Seen(h(k + 1)) == Meanwhile(h, o, k)
    ensures h(k + 1).pc == if Elapsed(t.issued, o(k).now, t.elapse) then Perform(t, o(k).now)
                           else Settle(t, o(k).now, NotElapsed)
  {
    var r := SeenTurn(h, o, k);
    JudgeIs(r, o(k));
  }

  /** `sched_send_msg`: the number taken, and the answer. */
  function Sent(v: Shared, size: nat, sent: bool): (Shared, Outcome) {
    if size > EM_BUF_SIZE then (v, Consumed)
    else (v.(nextSeq := (v.nextSeq + 1) % UINT32), if sent then Consumed else NetError)
  }

  lemma TransmitSeen(h: nat -> State, o: nat -> Tick, k: nat, t: Task, now: Timespec)
    requires Follows(h, o) && h(k).pc == Perform(t, now) && (t.kind == Send || t.kind == Hello)
    ensures var v := Meanwhile(h, o, k);
      var (w, op) := if t.kind == Hello && o(k).blen < 0 then (v, Consumed)
                     else Sent(v, if t.kind == Hello then o(k).blen else t.size, o(k).sent);
      Seen(h(k + 1)) == w && h(k + 1).pc == Settle(t, now, Finish(t, op))
  {
    var r := SeenTurn(h, o, k);
    PerformIs(r, o(k), t, now);
  }

  /** The wrapper is called. */
  function Called(v: Shared, c: Call): Shared {
    v.(calls := v.calls + [c])
  }

  /** The wrapper hears that the controller is gone. */
  function Alerted(v: Shared): Shared {
    v.(alerts := v.alerts + 1)
  }

  /** The call of a body that looks no trigger up. */
  function PlainCall(t: Task, mod: int): Call {
    if t.kind == UeReport then Call(t.serial, UeReport, 0, t.trig) else Call(t.serial, t.kind, mod, -1)
  }

  lemma PlainSeen(h: nat -> State, o: nat -> Tick, k: nat, t: Task, now: Timespec)
    requires Follows(h, o) && h(k).pc == Perform(t, now) && t.kind != Send && t.kind != Hello && !NeedsTrigger(t)
    ensures var v := Meanwhile(h, o, k);
      Seen(h(k + 1)) == if o(k).called && RunsCallback(t.kind)
                        then Foreigns(Called(v, PlainCall(t, o(k).mod)), o(k).inside) else v
    ensures h(k + 1).pc == Settle(t, now, Finish(t, Consumed))
  {
    var r := SeenTurn(h, o, k);
    PerformIs(r, o(k), t, now);
    SeenInside(Plainly(r, t, now, o(k).called, o(k).mod), o(k));
  }

  lemma LookupSeen(h: nat -> State, o: nat -> Tick, k: nat, t: Task, now: Timespec)
    requires Follows(h, o) && h(k).pc == Perform(t, now) && NeedsTrigger(t)
    ensures var v := Meanwhile(h, o, k);
      var i := First(v.table, HasId(t.trig));
      && Seen(h(k + 1)) == v
      && h(k + 1).pc == (
           if !o(k).provided || i == |v.table| then Settle(t, now, Finish(t, Consumed))
           else Calling(t, now, v.table[i], if t.kind == UeMeasure || o(k).count == 0 then o(k).count else 1))
  {
    var r := SeenTurn(h, o, k);
    PerformIs(r, o(k), t, now);
  }

  lemma CallSeen(h: nat -> State, o: nat -> Tick, k: nat, t: Task, now: Timespec, g: Trigger, left: nat)
    requires Follows(h, o) && h(k).pc == Calling(t, now, g, left)
    ensures var v := Meanwhile(h, o, k);
      Seen(h(k + 1)) == if left > 0
                        then Foreigns(Called(v, Call(t.serial, t.kind, g.key.mod, g.id)), o(k).inside)
                        else v
    ensures h(k + 1).pc == if left > 0 then Calling(t, now, g, left - 1) else Settle(t, now, Finish(t, Consumed))
  {
    var r := SeenTurn(h, o, k);
    CallIs(r, o(k));
    SeenInside(CalledBack(r, t, now, g, left), o(k));
  }

  /** The second critical section of a turn. */
  function Refiled(v: Shared, t: Task, now: Timespec, op: Outcome): Shared {
    v.(jobs := if op == NetError then [] else v.jobs,
       todo := AfterTodo(v.todo, t, now, op),
       freed := AfterFreed(v.freed, v.todo + v.jobs, t, op))
  }

  lemma SettleSeen(h: nat -> State, o: nat -> Tick, k: nat, t: Task, now: Timespec, op: Outcome)
    requires Follows(h, o) && h(k).pc == Settle(t, now, op)
    ensures Seen(h(k + 1)) == Refiled(Meanwhile(h, o, k), t, now, op)
    ensures h(k + 1).pc == if op == NetError then Flush else Pop
  {
    var r := SeenTurn(h, o, k);
    SettleIs(r, o(k));
    SettledIs(r, t, now, op);
  }

  lemma FlushSeen(h: nat -> State, o: nat -> Tick, k: nat)
    requires Follows(h, o) && h(k).pc.Flush?
    ensures Seen(h(k + 1)) == Meanwhile(h, o, k).(table := []) && h(k + 1).pc.Alert?
  {
    var r := SeenTurn(h, o, k);
    DownIs(r, o(k));
  }

  lemma AlertSeen(h: nat -> State, o: nat -> Tick, k: nat)
    requires Follows(h, o) && h(k).pc.Alert?
    ensures var v := Meanwhile(h, o, k);
      Seen(h(k + 1)) == if o(k).provided then Foreigns(Alerted(v), o(k).inside) else v
    ensures h(k + 1).pc.Down?
  {
    var r := SeenTurn(h, o, k);
    DownIs(r, o(k));
    SeenInside(r.(alerts := if o(k).provided then r.alerts + 1 else r.alerts, pc := Down), o(k));
  }

  lemma MarkDownSeen(h: nat -> State, o: nat -> Tick, k: nat)
    requires Follows(h, o) && h(k).pc.Down?
    ensures Seen(h(k + 1)) == Meanwhile(h, o, k).(up := false, nextSeq := 0) && h(k + 1).pc.Top?
  {
    var r := SeenTurn(h, o, k);
    DownIs(r, o(k));
  }

  lemma BackSeen(h: nat -> State, o: nat -> Tick, k: nat)
    requires Follows(h, o) && h(k).pc.Back?
    ensures var v := Meanwhile(h, o, k);
      Seen(h(k + 1)) == v.(jobs := MovedAll(v.todo, v.jobs), todo := []) && h(k + 1).pc.Top?
  {
    var r := SeenTurn(h, o, k);
    DownIs(r, o(k));
  }

  lemma TopSeen(h: nat -> State, o: nat -> Tick, k: nat)
    requires Follows(h, o) && h(k).pc.Top?
    ensures Seen(h(k + 1)) == Meanwhile(h, o, k)
    ensures if Meanwhile(h, o, k).stop then h(k + 1).pc.Drain? else Begun(h(k + 1))
  {
    var r := SeenTurn(h, o, k);
    LoopIs(r, o(k));
  }

  lemma DrainSeen(h: nat -> State, o: nat -> Tick, k: nat)
    requires Follows(h, o) && h(k).pc.Drain?
    ensures var v := Meanwhile(h, o, k);
      Seen(h(k + 1)) == v.(jobs := [], todo := [], freed := v.freed + Serials(v.todo + v.jobs))
    ensures h(k + 1).pc.Exited?
  {
    var r := SeenTurn(h, o, k);
    LoopIs(r, o(k));
  }
}
