/** The agent as a state machine. Three threads share it: the scheduler (agent/sched.c), the network
    loop (agent/net.c) and whoever calls the API (agent/core.c), callbacks included. A step is one
    critical section, or one access to shared memory outside any; steps interleave freely. What a
    thread learns from outside (the clock, `send`, parsed messages, which callbacks the wrapper
    provides) comes with the action. An action that its thread is not at does nothing. */
module Machine {
  import opened Clock
  import opened Tasks
  import opened Triggers
  import opened EmList
  import opened Framing

  const HELLO_MS := 2000
  const UINT32 := 0x1_0000_0000
  /** `net_te_cell_meas_report` files its trigger under this task type, 6 in `enum TASK_TYPES`. */
  const TASK_TYPE_CELL_MEASURE := 6

  /** Where the scheduler thread is. */
  datatype Pc =
    | Top                                                              // the test of `stop` in sched_loop
    | Pop                                                              // first critical section of sched_consume
    | Judge(task: Task)                                                // about to read the clock
    | Perform(task: Task, now: Timespec)                               // about to dispatch on the type
    | Calling(task: Task, now: Timespec, trigger: Trigger, left: nat)  // has found its trigger
    | Settle(task: Task, now: Timespec, op: Outcome)                   // second critical section
    | Flush | Alert | Down                                             // what follows a network error
    | Back                                                             // last critical section
    | Drain | Exited                                                   // the end of sched_loop

  /** Where the network thread is, as far as others can tell. */
  datatype NetPc =
    | Idle
    | Joined                                  // net_connect_to_controller succeeded
    | Greeted                                 // the Hello task was added
    | Spurned                                 // the Hello task was refused
    | Armed(kind: Kind, trigger: Trigger)     // the trigger was added, its task not yet

  /** `netctx`: the status, the next sequence number, and (history) the numbers handed to `net_send`
      since `seq` was last set to 0. */
  datatype Net = Net(up: bool, nextSeq: nat, handed: seq<nat>)

  /** One callback: for which task, with which module and trigger id. */
  datatype Call = Call(serial: nat, kind: Kind, mod: int, trig: int)

  /** Where a task ended. */
  datatype Fate = Alive | Done | Dropped | Refused

  /** History of one task: as it was when `sched_add_task` stamped it, when it was performed, its end. */
  datatype Record = Record(made: Task, runs: seq<Timespec>, fate: Fate)

  datatype Exam = Exam(task: Task, now: Timespec, op: Outcome)

  /** History of the current pass: the queue at its start, the tasks added until the queue was found
      empty, those added after that, and the tasks examined. */
  datatype Pass = Pass(entry: seq<Task>, came: seq<Task>, late: seq<Task>, exams: seq<Exam>)

  datatype State = State(
    jobs: seq<Task>, todo: seq<Task>, stop: bool, pc: Pc,
    table: seq<Trigger>, next: int,
    net: Net, npc: NetPc,
    // history
    ledger: seq<Record>, freed: seq<nat>, leaked: seq<nat>, minted: seq<Trigger>,
    calls: seq<Call>, alerts: nat, hellos: nat, pass: Pass)

  /** The agent as `em_start` leaves it. */
  function Start(): State {
    State([], [], false, Top, [], 1, Net(false, 0, []), Idle, [], [], [], [], [], 0, 0, Pass([], [], [], []))
  }

  datatype Action =
    // scheduler thread
    | Loop
    | PopJob
    | ReadClock(now: Timespec)
    | Transmit(blen: int, sent: bool)
    | Plain(called: bool, mod: int)
    | Lookup(provided: bool, count: nat)
    | Callback
    | SettleJob
    | FlushTriggers
    | AlertWrapper(provided: bool)
    | MarkDown
    | MoveBack
    | FinalDrain
    // network thread
    | Connect
    | Greet(at: Timespec)
    | MarkUp
    | Hangup
    | Arm(kind: Kind, mod: int, instance: int, msg: Bytes)
    | Launch(at: Timespec)
    | Disarm
    | Disown(kind: Kind, mod: int, instance: int)
    | Request(kind: Kind, elapse: int, at: Timespec)
    // callers of the API
    | Submit(size: nat, at: Timespec)
    | DelTrigger(id: int)
    | RaiseStop

  // ---------------------------------------------------------------- sched.c

  /** The task the scheduler thread holds between the two critical sections of a turn. */
  function Flight(pc: Pc): seq<Task> {
    match pc
    case Judge(t) => [t]
    case Perform(t, _) => [t]
    case Calling(t, _, _, _) => [t]
    case Settle(t, _, _) => [t]
    case _ => []
  }

  /** The pass is still taking tasks off `jobs`. */
  predicate Draining(pc: Pc) {
    pc.Pop? || Flight(pc) != []
  }

  function Marked(l: seq<Record>, ids: seq<nat>, f: Fate): (r: seq<Record>)
    ensures |r| == |l|
    ensures forall i | 0 <= i < |l| :: r[i] == if i in ids then l[i].(fate := f) else l[i]
  {
    seq(|l|, i requires 0 <= i < |l| => if i in ids then l[i].(fate := f) else l[i])
  }

  /** `task_free` of every task in `ts`. */
  function FreeAll(s: State, ts: seq<Task>, f: Fate): State {
    s.(freed := s.freed + Serials(ts), ledger := Marked(s.ledger, Serials(ts), f))
  }

  /** `sched_add_task`, and what its caller does with a refused task: free it, or lose it. */
  function AddTask(s: State, task: Task, owned: bool): State {
    var t := task.(serial := |s.ledger|);
    if !s.stop then
      s.(jobs := s.jobs + [t], ledger := s.ledger + [Record(t, [], Alive)],
         pass := if Draining(s.pc) then s.pass.(came := s.pass.came + [t])
                 else if s.pc.Back? then s.pass.(late := s.pass.late + [t]) else s.pass)
    else if owned then
      s.(ledger := s.ledger + [Record(t, [], Refused)], freed := s.freed + [t.serial])
    else
      s.(ledger := s.ledger + [Record(t, [], Refused)], leaked := s.leaked + [t.serial])
  }

  /** `sched_send_msg`: the bookkeeping of the sequence number, and the answer. */
  function MsgSent(net: Net, size: nat, sent: bool): (Net, Outcome) {
    if size > EM_BUF_SIZE then (net, Consumed)
    else
      (net.(nextSeq := (net.nextSeq + 1) % UINT32, handed := net.handed + [net.nextSeq]),
       if sent then Consumed else NetError)
  }

  /** Tasks whose body first looks a trigger up. */
  predicate NeedsTrigger(t: Task) {
    t.kind == UeMeasure || (t.kind == CellMeasure && t.trig > 0)
  }

  function Ran(l: seq<Record>, serial: nat, now: Timespec): (r: seq<Record>)
    ensures |r| == |l|
  {
    if serial < |l| then l[serial := l[serial].(runs := l[serial].runs + [now])] else l
  }

  /** After a network error the task in hand and every queued task is freed. */
  function Dumped(s: State, t: Task): State {
    FreeAll(s.(todo := [], jobs := [], hellos := 0, pc := Flush), [t] + s.todo + s.jobs, Dropped)
  }

  /** The second critical section of a turn. */
  function Settled(s: State, t: Task, now: Timespec, op: Outcome): State {
    var log := s.pass.(exams := s.pass.exams + [Exam(t, now, op)]);
    match op
    case NotElapsed => s.(todo := [t] + s.todo, pc := Pop, pass := log)
    case Reschedule => s.(todo := [Restamped(t, now)] + s.todo, pc := Pop, pass := log)
    case Consumed => FreeAll(s.(pc := Pop, pass := log), [t], Done)
    case NetError => Dumped(s, t)
  }

  /** The first critical section of a turn. */
  function Popped(s: State): State {
    if s.jobs == [] then s.(pc := Back) else s.(jobs := s.jobs[1..], pc := Judge(s.jobs[0]))
  }

  /** The clock is read, and a task whose interval has passed is about to be performed. */
  function Judged(s: State, t: Task, now: Timespec): State {
    if Elapsed(t.issued, now, t.elapse) then s.(pc := Perform(t, now), ledger := Ran(s.ledger, t.serial, now))
    else s.(pc := Settle(t, now, NotElapsed))
  }

  /** `sched_perform_send` and `sched_perform_hello`; `blen` is the length of the Hello formatted. */
  function Transmitted(s: State, t: Task, now: Timespec, blen: int, sent: bool): State {
    if t.kind == Hello && blen < 0 then s.(pc := Settle(t, now, Finish(t, Consumed)))
    else if t.kind == Hello || t.kind == Send then
      var (net, op) := MsgSent(s.net, if t.kind == Hello then blen else t.size, sent);
      s.(net := net, pc := Settle(t, now, Finish(t, op)))
    else s
  }

  /** The bodies that look no trigger up: at most one callback. `sched_perform_ue_report` passes the
      trigger id of its task on unchecked, and a module that nothing ever set. */
  function Plainly(s: State, t: Task, now: Timespec, called: bool, mod: int): State {
    if t.kind == Send || t.kind == Hello || NeedsTrigger(t) then s
    else
      var c := if t.kind == UeReport then Call(t.serial, UeReport, 0, t.trig) else Call(t.serial, t.kind, mod, -1);
      s.(calls := if called && RunsCallback(t.kind) then s.calls + [c] else s.calls,
         pc := Settle(t, now, Finish(t, Consumed)))
  }

  /** `trig_find_by_id` in `sched_perform_ue_measure` and `sched_perform_cell_meas`; `count` callbacks
      follow for the measurements parsed, and at most one for a cell. */
  function LookedUp(s: State, t: Task, now: Timespec, provided: bool, count: nat): State {
    var k := First(s.table, HasId(t.trig));
    if !NeedsTrigger(t) then s
    else if !provided || k == |s.table| then s.(pc := Settle(t, now, Finish(t, Consumed)))
    else s.(pc := Calling(t, now, s.table[k], if t.kind == UeMeasure || count == 0 then count else 1))
  }

  function CalledBack(s: State, t: Task, now: Timespec, g: Trigger, left: nat): State {
    if left == 0 then s.(pc := Settle(t, now, Finish(t, Consumed)))
    else s.(calls := s.calls + [Call(t.serial, t.kind, g.key.mod, g.id)], pc := Calling(t, now, g, left - 1))
  }

  /** The critical section at the end of `sched_loop`. */
  function Drained(s: State): State {
    FreeAll(s.(todo := [], jobs := [], hellos := 0, pc := Exited), s.todo + s.jobs, Dropped)
  }

  /** The last critical section of a pass: each task of `todo` in turn to the head of `jobs`. */
  function PassEnded(s: State): State {
    s.(jobs := MovedAll(s.todo, s.jobs), todo := [], pc := Top)
  }

  function SchedNext(s: State, a: Action): State {
    match a
    case Loop =>
      if !s.pc.Top? then s else if s.stop then s.(pc := Drain) else s.(pc := Pop, pass := Pass(s.jobs, [], [], []))
    case PopJob => if s.pc.Pop? then Popped(s) else s
    case ReadClock(now) => if s.pc.Judge? then Judged(s, s.pc.task, now) else s
    case Transmit(blen, sent) => if s.pc.Perform? then Transmitted(s, s.pc.task, s.pc.now, blen, sent) else s
    case Plain(called, mod) => if s.pc.Perform? then Plainly(s, s.pc.task, s.pc.now, called, mod) else s
    case Lookup(provided, count) => if s.pc.Perform? then LookedUp(s, s.pc.task, s.pc.now, provided, count) else s
    case Callback => if s.pc.Calling? then CalledBack(s, s.pc.task, s.pc.now, s.pc.trigger, s.pc.left) else s
    case SettleJob => if s.pc.Settle? then Settled(s, s.pc.task, s.pc.now, s.pc.op) else s
    case FlushTriggers => if s.pc.Flush? then s.(table := [], pc := Alert) else s
    case AlertWrapper(provided) =>
      if s.pc.Alert? then s.(alerts := if provided then s.alerts + 1 else s.alerts, pc := Down) else s
    case MarkDown => if s.pc.Down? then Disconnected(s).(pc := Top) else s
    case MoveBack => if s.pc.Back? then PassEnded(s) else s
    case FinalDrain => if s.pc.Drain? then Drained(s) else s
    case _ => s
  }

  // ------------------------------------------------------------------ net.c

  /** The key a request files its trigger under. */
  function ArmKey(kind: Kind, mod: int, instance: int): Key {
    if kind == UeMeasure then Key(mod, TR_TYPE_UE_MEAS, instance)
    else if kind == UeReport then Key(mod, TR_TYPE_UE_REP, 0)
    else Key(mod, TASK_TYPE_CELL_MEASURE, 0)
  }

  /** The key the matching removal looks for: not the same one for cell measurements. */
  function DisownKey(kind: Kind, mod: int, instance: int): Key {
    if kind == CellMeasure then Key(mod, TR_TYPE_MAC_REP, 0) else ArmKey(kind, mod, instance)
  }

  predicate Triggered(k: Kind) {
    k == UeMeasure || k == UeReport || k == CellMeasure
  }

  /** Tasks the network thread creates straight from a message. */
  predicate Requested(k: Kind) {
    k == EnbSetup || k == Ho || k == RanSetup || k == RanSlice || k == CellMeasure
  }

  /** `trig_add` of a new trigger. */
  function ArmedWith(s: State, kind: Kind, key: Key, msg: Bytes): State {
    var g := Trigger(s.next, key, msg);
    s.(table := [g] + s.table, next := s.next + 1, minted := s.minted + [g], npc := Armed(kind, g))
  }

  function HelloTask(at: Timespec): Task {
    Task(0, Hello, HELLO_MS, -1, 0, 0, at)
  }

  /** `net_connected`, up to `sched_add_task`: a refused Hello task is freed. */
  function GreetedAt(s: State, at: Timespec): State {
    AddTask(s, HelloTask(at), true).(
      npc := if s.stop then Spurned else Greeted, hellos := if s.stop then s.hellos else s.hellos + 1)
  }

  /** The task a message asks for: only scheduled cell measurements carry an interval, and go on for ever. */
  function RequestTask(kind: Kind, elapse: int, at: Timespec): Task {
    if kind == CellMeasure then Task(0, kind, elapse, -1, 0, 0, at) else Task(0, kind, 1, 0, 0, 0, at)
  }

  /** The task that goes with a new trigger. */
  function TriggerTask(kind: Kind, g: Trigger, at: Timespec): Task {
    Task(0, kind, 1, 0, g.id, 0, at)
  }

  function Launched(s: State, kind: Kind, g: Trigger, at: Timespec): State {
    AddTask(s, TriggerTask(kind, g, at), false).(npc := Idle)
  }

  /** The first trigger that satisfies `p` goes. */
  function Removed(s: State, p: Trigger -> bool): State {
    s.(table := RemoveFirst(s.table, p))
  }

  function Disconnected(s: State): State {
    s.(net := Net(false, 0, []))
  }

  function NetNext(s: State, a: Action): State {
    match a
    case Connect => if s.npc.Idle? && !s.net.up then s.(npc := Joined) else s
    case Greet(at) => if s.npc.Joined? then GreetedAt(s, at) else s
    case MarkUp => if s.npc.Greeted? then s.(net := s.net.(up := true), npc := Idle) else s
    case Hangup => if s.npc.Idle? || s.npc.Spurned? then Disconnected(s).(npc := Idle) else s
    case Arm(kind, mod, instance, msg) =>
      if s.npc.Idle? && Triggered(kind) && s.next < INT_MAX
      then ArmedWith(s, kind, ArmKey(kind, mod, instance), msg) else s
    case Launch(at) =>
      if s.npc.Armed? then Launched(s, s.npc.kind, s.npc.trigger, at) else s
    case Disarm =>
      if s.npc.Armed? then Removed(s, HasId(s.npc.trigger.id)).(npc := Idle) else s
    case Disown(kind, mod, instance) =>
      if s.npc.Idle? && Triggered(kind) then Removed(s, HasKey(DisownKey(kind, mod, instance))) else s
    case Request(kind, elapse, at) =>
      if s.npc.Idle? && Requested(kind) then AddTask(s, RequestTask(kind, elapse, at), false) else s
    case _ => s
  }

  // ----------------------------------------------------------------- core.c

  /** The task of `core_send`. */
  function SendTask(size: nat, at: Timespec): Task {
    Task(0, Send, 1, 0, 0, size, at)
  }

  function ApiNext(s: State, a: Action): State {
    match a
    case Submit(size, at) => if size == 0 then s else AddTask(s, SendTask(size, at), false)
    case DelTrigger(id) => Removed(s, HasId(id))
    case RaiseStop => s.(stop := true)
    case _ => s
  }

  // -------------------------------------------------------------------- runs

  predicate BySched(a: Action) {
    a.Loop? || a.PopJob? || a.ReadClock? || a.Transmit? || a.Plain? || a.Lookup? || a.Callback? || a.SettleJob?
    || a.FlushTriggers? || a.AlertWrapper? || a.MarkDown? || a.MoveBack? || a.FinalDrain?
  }

  predicate ByApi(a: Action) {
    a.Submit? || a.DelTrigger? || a.RaiseStop?
  }

  function Next(s: State, a: Action): State {
    if BySched(a) then SchedNext(s, a) else if ByApi(a) then ApiNext(s, a) else NetNext(s, a)
  }

  /** The state after the actions `acts`, from `s`. */
  function Exec(s: State, acts: seq<Action>): State
    decreases |acts|
  {
    if acts == [] then s else Next(Exec(s, acts[..|acts| - 1]), acts[|acts| - 1])
  }

  lemma {:induction false} ExecAdd(s: State, a: seq<Action>, b: seq<Action>)
    ensures Exec(s, a + b) == Exec(Exec(s, a), b)
    decreases |b|
  {
    if b == [] {
      assert a + b == a;
    } else {
      var c := b[..|b| - 1];
      ExecAdd(s, a, c);
      assert (a + b)[..|a + b| - 1] == a + c;
    }
  }

  lemma ExecOne(s: State, a: Action) returns (r: State)
    ensures r == Next(s, a) == Exec(s, [a])
  {
    r := Next(s, a);
    assert [a][..0] == [];
  }
}
