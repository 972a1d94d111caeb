/** The agent in place: the scheduling, trigger and network contexts, what each atomic step of any thread
    does to them, and the code of `sched_consume` and `sched_loop` built from such steps. */
module Agent {
  import opened Clock
  import opened EmList
  import opened Tasks
  import opened Triggers
  import opened Machine
  import opened Scheduler
  import opened NetLoop
  import opened Framing
  import opened Theorems
  import opened Turns
  import opened View
  import opened Endings
  import opened Passes

  /** The parts of an agent. */
  datatype Part = Scheduling | Triggering | Networking

  class Emage {
    const sched: SchCtx
    const trig: TrigCtx
    const net: NetCtx
    /** What the network thread has at hand between its steps. */
    var npc: NetPc
    /** The callbacks made so far, the disconnections signalled, and the tasks allocated. */
    var calls: seq<Call>
    var alerts: nat
    var made: nat
    ghost var view: Shared
    ghost var Repr: set<object>

    /** The contexts are what `view` says. */
    ghost predicate Shows()
      reads this, sched, trig, net
    {
      view == Shared(sched.Jobs, sched.Todo, sched.stop, sched.freed, trig.Table, trig.next, net.status, net.nextSeq,
                     npc, calls, alerts, made)
    }

    ghost predicate Present()
      reads this
    {
      this in Repr && sched in Repr && trig in Repr && net in Repr && net.buf in Repr
    }

    /** A part is well-formed and shares nothing with the others. */
    ghost predicate Sound(p: Part)
      requires Present()
      reads this, Repr
    {
      match p
      case Scheduling => sched.Repr <= Repr && sched.Valid() && {this, net, net.buf} !! sched.Repr
      case Triggering =>
        trig.Repr <= Repr && trig.Valid() && {this, net, net.buf} !! trig.Repr && sched.Repr !! trig.Repr
      case Networking => net.Agrees()
    }

    /** Every part is sound, and all is as `view` says. */
    ghost predicate Ready()
      reads this, Repr
    {
      Present() && (forall p :: Sound(p)) && Shows()
    }

    lemma IdsBelow()
      requires Ready()
      ensures Below(view.table, view.next)
    {
      assert Sound(Triggering);
      trig.IdsBelow();
    }

    /** The agent as `em_start` leaves it. */
    constructor (p: Protocol)
      requires Fits(p)
      ensures fresh(Repr) && Ready() && view == Seen(Start())
    {
      var s := new SchCtx();
      var t := new TrigCtx();
      var n := new NetCtx(p);
      sched, trig, net := s, t, n;
      npc, calls, alerts, made := Idle, [], 0, 0;
      view := Seen(Start());
      ghost var r: set<object> := s.Repr + t.Repr + {n, n.buf};
      assert fresh(r);
      Repr := r + {this};
      new;
      forall p: Part ensures Sound(p) {
        match p
        case Scheduling =>
        case Triggering =>
        case Networking =>
      }
    }

    // -------------------------------------------------- one context at a time

    /** `task_alloc` and `sched_add_task`; the caller frees a refused task only if it is `owned`. */
    method Enqueue(t: Task, owned: bool)
      requires Ready()
      modifies Repr
      ensures Ready() && fresh(Repr - old(Repr)) && view == Enqueued(old(view), t, owned)
    {
      assert Sound(Scheduling) && Sound(Triggering) && Sound(Networking);
      sched.Offer(t.(serial := made), owned);
      made, Repr, view := made + 1, Repr + sched.Repr, Enqueued(view, t, owned);
    }

    /** A new trigger, filed under `key`. */
    method Install(key: Key, msg: Bytes) returns (g: Trigger)
      requires Ready() && trig.next < INT_MAX
      modifies Repr
      ensures Ready() && fresh(Repr - old(Repr)) && g == Trigger(old(view.next), key, msg)
      ensures view == old(view).(table := [g] + old(view.table), next := old(view.next) + 1)
    {
      assert Sound(Scheduling) && Sound(Triggering) && Sound(Networking);
      g := trig.Install(key, msg);
      Repr, view := Repr + trig.Repr, view.(table := [g] + view.table, next := view.next + 1);
    }

    /** `trig_del_by_id` and `trig_del_by_inst`. */
    method Remove(p: Trigger -> bool)
      requires Ready()
      modifies Repr
      ensures Ready() && Repr == old(Repr) && view == old(view).(table := RemoveFirst(old(view.table), p))
    {
      assert Sound(Scheduling) && Sound(Triggering) && Sound(Networking);
      var _ := trig.DelFirst(p);
      view := view.(table := RemoveFirst(view.table, p));
    }

    /** `trig_find_by_id`, which is called only if the wrapper provides the callback. */
    method FindTrigger(id: int, provided: bool) returns (found: bool, g: Trigger)
      requires Ready()
      ensures var i := First(view.table, HasId(id));
        (found <==> provided && i < |view.table|) && (found ==> g == view.table[i])
    {
      if !provided {
        return false, Trigger(0, Key(0, 0, 0), []);
      }
      assert Sound(Scheduling) && Sound(Triggering) && Sound(Networking);
      var node := trig.Find(HasId(id));
      found, g := node != null, Trigger(0, Key(0, 0, 0), []);
      if found {
        g := node.entry;
      }
    }

    /** `trig_flush`. */
    method FlushTriggers()
      requires Ready()
      modifies Repr
      ensures Ready() && Repr == old(Repr) && view == old(view).(table := [])
    {
      assert Sound(Scheduling) && Sound(Triggering) && Sound(Networking);
      trig.Flush();
      view := view.(table := []);
    }

    /** `net_not_connected`. */
    method Disconnect()
      requires Ready()
      modifies Repr
      ensures Ready() && Repr == old(Repr) && view == old(view).(up := false, nextSeq := 0)
    {
      assert Sound(Scheduling) && Sound(Triggering) && Sound(Networking);
      net.NotConnected();
      view := view.(up := false, nextSeq := 0);
    }

    method MarkUp()
      requires Ready()
      modifies Repr
      ensures Ready() && Repr == old(Repr) && view == old(view).(up := true)
    {
      assert Sound(Scheduling) && Sound(Triggering) && Sound(Networking);
      net.MarkUp();
      view := view.(up := true);
    }

    /** What `sched_stop` tells the scheduler. */
    method RaiseStop()
      requires Ready()
      modifies Repr
      ensures Ready() && Repr == old(Repr) && view == old(view).(stop := true)
    {
      assert Sound(Scheduling) && Sound(Triggering) && Sound(Networking);
      sched.RaiseStop();
      view := view.(stop := true);
    }

    method SetNpc(p: NetPc)
      requires Ready()
      modifies Repr
      ensures Ready() && Repr == old(Repr) && view == old(view).(npc := p)
    {
      assert Sound(Scheduling) && Sound(Triggering) && Sound(Networking);
      npc, view := p, view.(npc := p);
    }

    /** The first critical section of a turn; the task is then on no list. */
    method TakeJob() returns (task: ListHead?<Task>)
      requires Ready()
      modifies Repr
      ensures Ready() && Repr <= old(Repr)
      ensures if old(view.jobs) == [] then task == null && view == old(view)
              else task != null && task !in Repr && task in old(Repr) && task.entry == old(view.jobs)[0]
                   && view == old(view).(jobs := old(view.jobs)[1..])
    {
      assert Sound(Scheduling) && Sound(Triggering) && Sound(Networking);
      task := sched.Pop();
      if task != null {
        Repr, view := Repr - {task}, view.(jobs := view.jobs[1..]);
      }
    }

    /** The second critical section of a turn. */
    method Refile(task: ListHead<Task>, now: Timespec, op: Outcome)
      requires Ready() && task !in Repr
      modifies Repr, task
      ensures Ready() && Repr == old(Repr) + {task} && view == Refiled(old(view), old(task.entry), now, op)
    {
      assert Sound(Scheduling) && Sound(Triggering) && Sound(Networking);
      ghost var t := task.entry;
      sched.Settle(task, now, op);
      Repr, view := Repr + {task}, Refiled(view, t, now, op);
    }

    /** The last critical section of a pass. */
    method MoveBack()
      requires Ready()
      modifies Repr
      ensures Ready() && Repr == old(Repr)
        && view == old(view).(jobs := MovedAll(old(view.todo), old(view.jobs)), todo := [])
    {
      assert Sound(Scheduling) && Sound(Triggering) && Sound(Networking);
      sched.MoveBack();
      view := view.(jobs := MovedAll(view.todo, view.jobs), todo := []);
    }

    /** The end of `sched_loop`. */
    method FreeAll()
      requires Ready()
      modifies Repr
      ensures Ready() && Repr == old(Repr)
        && view == old(view).(jobs := [], todo := [], freed := old(view.freed + Serials(view.todo + view.jobs)))
    {
      assert Sound(Scheduling) && Sound(Triggering) && Sound(Networking);
      sched.Dump();
      view := view.(jobs := [], todo := [], freed := view.freed + Serials(view.todo + view.jobs));
    }

    // ------------------------------------------------------ the other threads

    /** `core_send`. */
    method Submit(a: Action)
      requires Ready() && a.Submit?
      modifies Repr
      ensures Ready() && fresh(Repr - old(Repr)) && view == Foreign(old(view), a)
    {
      if a.size != 0 {
        Enqueue(SendTask(a.size, a.at), false);
      }
    }

    /** `net_connected`, up to the answer of `sched_add_task`. */
    method Greet(a: Action)
      requires Ready() && a.Greet?
      modifies Repr
      ensures Ready() && fresh(Repr - old(Repr)) && view == Foreign(old(view), a)
    {
      if npc.Joined? {
        Enqueue(HelloTask(a.at), true);
        SetNpc(if sched.stop then Spurned else Greeted);
      }
    }

    /** The task that goes with the trigger just added. */
    method Launch(a: Action)
      requires Ready() && a.Launch?
      modifies Repr
      ensures Ready() && fresh(Repr - old(Repr)) && view == Foreign(old(view), a)
    {
      if npc.Armed? {
        Enqueue(TriggerTask(npc.kind, npc.trigger, a.at), false);
        SetNpc(Idle);
      }
    }

    /** A task straight from a message. */
    method Request(a: Action)
      requires Ready() && a.Request?
      modifies Repr
      ensures Ready() && fresh(Repr - old(Repr)) && view == Foreign(old(view), a)
    {
      if npc.Idle? && Requested(a.kind) {
        Enqueue(RequestTask(a.kind, a.elapse, a.at), false);
      }
    }

    /** `trig_add` for a request. */
    method Arm(a: Action)
      requires Ready() && a.Arm?
      modifies Repr
      ensures Ready() && fresh(Repr - old(Repr)) && view == Foreign(old(view), a)
    {
      if npc.Idle? && Triggered(a.kind) && trig.next < INT_MAX {
        var g := Install(ArmKey(a.kind, a.mod, a.instance), a.msg);
        SetNpc(NetPc.Armed(a.kind, g));
      }
    }

    /** `trig_del_by_id` when the task of a new trigger cannot be made. */
    method Disarm(a: Action)
      requires Ready() && a.Disarm?
      modifies Repr
      ensures Ready() && fresh(Repr - old(Repr)) && view == Foreign(old(view), a)
    {
      if npc.Armed? {
        Remove(HasId(npc.trigger.id));
        SetNpc(Idle);
      }
    }

    /** `trig_del_by_inst` for a request. */
    method Disown(a: Action)
      requires Ready() && a.Disown?
      modifies Repr
      ensures Ready() && fresh(Repr - old(Repr)) && view == Foreign(old(view), a)
    {
      if npc.Idle? && Triggered(a.kind) {
        Remove(HasKey(DisownKey(a.kind, a.mod, a.instance)));
      }
    }

    /** The end of `net_connected`. */
    method ComeUp(a: Action)
      requires Ready() && a.MarkUp?
      modifies Repr
      ensures Ready() && fresh(Repr - old(Repr)) && view == Foreign(old(view), a)
    {
      if npc.Greeted? {
        MarkUp();
        SetNpc(Idle);
      }
    }

    /** `net_not_connected`, called by the network thread. */
    method Hangup(a: Action)
      requires Ready() && a.Hangup?
      modifies Repr
      ensures Ready() && fresh(Repr - old(Repr)) && view == Foreign(old(view), a)
    {
      if npc.Idle? || npc.Spurned? {
        Disconnect();
        SetNpc(Idle);
      }
    }

    /** A step of the network thread. */
    method NetStep(a: Action)
      requires Ready() && !BySched(a) && !ByApi(a)
      modifies Repr
      ensures Ready() && fresh(Repr - old(Repr)) && view == Foreign(old(view), a)
    {
      match a
      case Greet(_) => Greet(a);
      case Launch(_) => Launch(a);
      case Request(_, _, _) => Request(a);
      case Arm(_, _, _, _) => Arm(a);
      case Disarm => Disarm(a);
      case Disown(_, _, _) => Disown(a);
      case MarkUp => ComeUp(a);
      case Hangup => Hangup(a);
      case Connect =>
        if npc.Idle? && !net.status {
          SetNpc(Joined);
        }
    }

    /** A step of a caller of the API. */
    method ApiStep(a: Action)
      requires Ready() && ByApi(a)
      modifies Repr
      ensures Ready() && fresh(Repr - old(Repr)) && view == Foreign(old(view), a)
    {
      match a
      case Submit(_, _) => Submit(a);
      case DelTrigger(id) => Remove(HasId(id));
      case RaiseStop => RaiseStop();
    }

    /** Any step of another thread. */
    method Other(a: Action)
      requires Ready() && !BySched(a)
      modifies Repr
      ensures Ready() && fresh(Repr - old(Repr)) && view == Foreign(old(view), a)
    {
      if ByApi(a) {
        ApiStep(a);
      } else {
        NetStep(a);
      }
    }

    method Others(acts: seq<Action>)
      requires Ready() && forall a | a in acts :: !BySched(a)
      modifies Repr
      ensures Ready() && fresh(Repr - old(Repr)) && view == Foreigns(old(view), acts)
      decreases |acts|
    {
      if acts != [] {
        var b, a := acts[..|acts| - 1], acts[|acts| - 1];
        assert acts == b + [a];
        Others(b);
        Other(a);
      }
    }

    // ----------------------------------------- a turn of the scheduler thread

    /** `sched_send_msg`. */
    method SendMsg(size: nat, sent: bool) returns (op: Outcome)
      requires Ready()
      modifies Repr
      ensures Ready() && Repr == old(Repr) && (view, op) == Sent(old(view), size, sent)
    {
      assert Sound(Scheduling) && Sound(Triggering) && Sound(Networking);
      if size > EM_BUF_SIZE {
        return Consumed;
      }
      var _ := net.NextSeq();
      view := view.(nextSeq := (view.nextSeq + 1) % UINT32);
      op := if sent then Consumed else NetError;
    }

    method Record(c: Call)
      requires Ready()
      modifies Repr
      ensures Ready() && Repr == old(Repr) && view == Called(old(view), c)
    {
      assert Sound(Scheduling) && Sound(Triggering) && Sound(Networking);
      calls, view := calls + [c], Called(view, c);
    }

    method CountAlert()
      requires Ready()
      modifies Repr
      ensures Ready() && Repr == old(Repr) && view == Alerted(old(view))
    {
      assert Sound(Scheduling) && Sound(Triggering) && Sound(Networking);
      alerts, view := alerts + 1, Alerted(view);
    }

    /** The wrapper is called, and calls the API. */
    method CallOut(c: Call, inside: seq<Action>)
      requires Ready() && forall a | a in inside :: ByApi(a)
      modifies Repr
      ensures Ready() && fresh(Repr - old(Repr))
      ensures view == Foreigns(Called(old(view), c), inside)
    {
      Record(c);
      Others(inside);
    }

    /** The wrapper hears that the controller is gone, and calls the API. */
    method Alert(inside: seq<Action>)
      requires Ready() && forall a | a in inside :: ByApi(a)
      modifies Repr
      ensures Ready() && fresh(Repr - old(Repr))
      ensures view == Foreigns(Alerted(old(view)), inside)
    {
      CountAlert();
      Others(inside);
    }

    /** The thread is at turn `k` of the run `h`, in a pass that is over by turn `e`. */
    ghost predicate At(h: nat -> State, k: nat, e: nat)
      reads this, Repr
    {
      Ready() && view == Seen(h(k)) && On(h, k, e)
    }

    /** The others have had their turn `k`. */
    method Meantime(o: nat -> Tick, k: nat, ghost h: nat -> State)
      requires Ready() && view == Seen(h(k)) && Proper(o(k))
      modifies Repr
      ensures Ready() && fresh(Repr - old(Repr)) && view == Meanwhile(h, o, k)
    {
      Others(o(k).others);
    }

    method PopTurn(o: nat -> Tick, k: nat, ghost h: nat -> State, ghost e: nat) returns (task: ListHead?<Task>)
      requires At(h, k, e) && Follows(h, o) && h(k).pc.Pop?
      modifies Repr
      ensures At(h, k + 1, e) && fresh(Repr - old(Repr))
      ensures h(k + 1).pc == if task == null then Back else Judge(task.entry)
      ensures task != null ==> task !in Repr && (fresh(task) || task in old(Repr))
    {
      Onward(h, o, k, e);
      PopSeen(h, o, k);
      Meantime(o, k, h);
      task := TakeJob();
    }

    /** The clock is read: is the task to be performed now? */
    method JudgeTurn(o: nat -> Tick, k: nat, task: ListHead<Task>, ghost h: nat -> State, ghost e: nat)
      returns (due: bool)
      requires At(h, k, e) && Follows(h, o) && task !in Repr && h(k).pc == Judge(task.entry)
      modifies Repr
      ensures At(h, k + 1, e) && fresh(Repr - old(Repr)) && task !in Repr && task.entry == old(task.entry)
      ensures h(k + 1).pc == if due then Perform(task.entry, o(k).now) else Settle(task.entry, o(k).now, NotElapsed)
    {
      Onward(h, o, k, e);
      JudgeSeen(h, o, k, task.entry);
      Meantime(o, k, h);
      due := !(TsDiffToMs(task.entry.issued, o(k).now) < task.entry.elapse);
    }

    /** `sched_perform_send` and `sched_perform_hello`. */
    method TransmitTurn(o: nat -> Tick, k: nat, t: Task, now: Timespec, ghost h: nat -> State, ghost e: nat)
      returns (op: Outcome)
      requires At(h, k, e) && Follows(h, o) && h(k).pc == Perform(t, now) && (t.kind == Send || t.kind == Hello)
      modifies Repr
      ensures At(h, k + 1, e) && fresh(Repr - old(Repr)) && h(k + 1).pc == Settle(t, now, op)
    {
      Onward(h, o, k, e);
      TransmitSeen(h, o, k, t, now);
      Meantime(o, k, h);
      op := Consumed;
      if t.kind == Send {
        op := SendMsg(t.size, o(k).sent);
      } else if o(k).blen >= 0 {
        op := SendMsg(o(k).blen, o(k).sent);
      }
      op := Finish(t, op);
    }

    /** The bodies that look no trigger up. */
    method PlainTurn(o: nat -> Tick, k: nat, t: Task, now: Timespec, ghost h: nat -> State, ghost e: nat)
      returns (op: Outcome)
      requires At(h, k, e) && Follows(h, o) && h(k).pc == Perform(t, now)
      requires t.kind != Send && t.kind != Hello && !NeedsTrigger(t)
      modifies Repr
      ensures At(h, k + 1, e) && fresh(Repr - old(Repr)) && h(k + 1).pc == Settle(t, now, op)
    {
      Onward(h, o, k, e);
      PlainSeen(h, o, k, t, now);
      Meantime(o, k, h);
      if o(k).called && RunsCallback(t.kind) {
        CallOut(PlainCall(t, o(k).mod), o(k).inside);
      }
      op := Finish(t, Consumed);
    }

    /** `trig_find_by_id` for a task: the trigger and the number of callbacks to make, if there is one. */
    method LookupTurn(o: nat -> Tick, k: nat, t: Task, now: Timespec, ghost h: nat -> State, ghost e: nat)
      returns (found: bool, g: Trigger, left: nat)
      requires At(h, k, e) && Follows(h, o) && h(k).pc == Perform(t, now) && NeedsTrigger(t)
      modifies Repr
      ensures At(h, k + 1, e) && fresh(Repr - old(Repr))
      ensures h(k + 1).pc == if found then Calling(t, now, g, left) else Settle(t, now, Finish(t, Consumed))
    {
      Onward(h, o, k, e);
      LookupSeen(h, o, k, t, now);
      Meantime(o, k, h);
      found, g := FindTrigger(t.trig, o(k).provided);
      left := if t.kind == UeMeasure || o(k).count == 0 then o(k).count else 1;
    }

    /** One callback for the trigger found, or none if there are none left. */
    method CallTurn(o: nat -> Tick, k: nat, t: Task, now: Timespec, g: Trigger, left: nat,
                    ghost h: nat -> State, ghost e: nat)
      requires At(h, k, e) && Follows(h, o) && h(k).pc == Calling(t, now, g, left)
      modifies Repr
      ensures At(h, k + 1, e) && fresh(Repr - old(Repr))
      ensures h(k + 1).pc == if left > 0 then Calling(t, now, g, left - 1) else Settle(t, now, Finish(t, Consumed))
    {
      Onward(h, o, k, e);
      CallSeen(h, o, k, t, now, g, left);
      Meantime(o, k, h);
      if left > 0 {
        CallOut(Call(t.serial, t.kind, g.key.mod, g.id), o(k).inside);
      }
    }

    method SettleTurn(o: nat -> Tick, k: nat, task: ListHead<Task>, now: Timespec, op: Outcome,
                      ghost h: nat -> State, ghost e: nat)
      requires At(h, k, e) && Follows(h, o) && task !in Repr && h(k).pc == Settle(task.entry, now, op)
      modifies Repr, task
      ensures At(h, k + 1, e) && fresh(Repr - old(Repr) - {task})
      ensures h(k + 1).pc == if op == NetError then Flush else Pop
      ensures op == NetError ==> ErrorBefore(h, k + 1)
    {
      Onward(h, o, k, e);
      SettleSeen(h, o, k, task.entry, now, op);
      Meantime(o, k, h);
      Refile(task, now, op);
    }

    method FlushTurn(o: nat -> Tick, k: nat, ghost h: nat -> State, ghost e: nat)
      requires At(h, k, e) && Follows(h, o) && h(k).pc.Flush?
      modifies Repr
      ensures At(h, k + 1, e) && fresh(Repr - old(Repr)) && h(k + 1).pc.Alert?
    {
      Onward(h, o, k, e);
      FlushSeen(h, o, k);
      Meantime(o, k, h);
      FlushTriggers();
    }

    method AlertTurn(o: nat -> Tick, k: nat, ghost h: nat -> State, ghost e: nat)
      requires At(h, k, e) && Follows(h, o) && h(k).pc.Alert?
      modifies Repr
      ensures At(h, k + 1, e) && fresh(Repr - old(Repr)) && h(k + 1).pc.Down?
    {
      Onward(h, o, k, e);
      AlertSeen(h, o, k);
      Meantime(o, k, h);
      if o(k).provided {
        Alert(o(k).inside);
      }
    }

    /** The last turn after a network error: the connection is marked down. */
    method DownTurn(o: nat -> Tick, k: nat, ghost h: nat -> State, ghost e: nat)
      requires At(h, k, e) && Follows(h, o) && h(k).pc.Down?
      modifies Repr
      ensures Ready() && view == Seen(h(k + 1)) && fresh(Repr - old(Repr)) && h(k + 1).pc.Top?
    {
      Onward(h, o, k, e);
      MarkDownSeen(h, o, k);
      Meantime(o, k, h);
      Disconnect();
    }

    /** The last turn otherwise: the tasks retained move back. */
    method BackTurn(o: nat -> Tick, k: nat, ghost h: nat -> State, ghost e: nat)
      requires At(h, k, e) && Follows(h, o) && h(k).pc.Back?
      modifies Repr
      ensures Ready() && view == Seen(h(k + 1)) && fresh(Repr - old(Repr)) && h(k + 1).pc.Top?
    {
      Onward(h, o, k, e);
      BackSeen(h, o, k);
      Meantime(o, k, h);
      MoveBack();
    }

    // ----------------------------------------------------------- sched_consume

    /** The loop of callbacks for the trigger found. */
    method CallEach(o: nat -> Tick, start: nat, t: Task, now: Timespec, g: Trigger, count: nat,
                    ghost h: nat -> State, ghost e: nat) returns (k: nat)
      requires At(h, start, e) && Follows(h, o) && h(start).pc == Calling(t, now, g, count)
      modifies Repr
      ensures At(h, k, e) && fresh(Repr - old(Repr)) && start <= k && h(k).pc == Calling(t, now, g, 0)
    {
      k := start;
      for left := count downto 0
        invariant At(h, k, e) && fresh(Repr - old(Repr)) && start <= k && h(k).pc == Calling(t, now, g, left)
      {
        CallTurn(o, k, t, now, g, left + 1, h, e);
        k := k + 1;
      }
    }

    /** The callbacks for the trigger found, to the last. */
    method CallAll(o: nat -> Tick, start: nat, t: Task, now: Timespec, g: Trigger, count: nat,
                   ghost h: nat -> State, ghost e: nat) returns (k: nat)
      requires At(h, start, e) && Follows(h, o) && h(start).pc == Calling(t, now, g, count)
      modifies Repr
      ensures At(h, k, e) && fresh(Repr - old(Repr)) && start < k
      ensures h(k).pc == Settle(t, now, Finish(t, Consumed))
    {
      k := CallEach(o, start, t, now, g, count, h, e);
      CallTurn(o, k, t, now, g, 0, h, e);
      k := k + 1;
    }

    /** The bodies that look a trigger up. */
    method LookUpAndCall(o: nat -> Tick, start: nat, t: Task, now: Timespec, ghost h: nat -> State, ghost e: nat)
      returns (k: nat)
      requires At(h, start, e) && Follows(h, o) && h(start).pc == Perform(t, now) && NeedsTrigger(t)
      modifies Repr
      ensures At(h, k, e) && fresh(Repr - old(Repr)) && start < k
      ensures h(k).pc == Settle(t, now, Finish(t, Consumed))
    {
      var found, g, left := LookupTurn(o, start, t, now, h, e);
      k := start + 1;
      if found {
        k := CallAll(o, k, t, now, g, left, h, e);
      }
    }

    /** The `switch` of `sched_perform_job`. */
    method Dispatch(o: nat -> Tick, start: nat, t: Task, now: Timespec, ghost h: nat -> State, ghost e: nat)
      returns (op: Outcome, k: nat)
      requires At(h, start, e) && Follows(h, o) && h(start).pc == Perform(t, now)
      modifies Repr
      ensures At(h, k, e) && fresh(Repr - old(Repr)) && start < k && h(k).pc == Settle(t, now, op)
    {
      k := start + 1;
      if t.kind == Send || t.kind == Hello {
        op := TransmitTurn(o, start, t, now, h, e);
      } else if NeedsTrigger(t) {
        k := LookUpAndCall(o, start, t, now, h, e);
        op := Finish(t, Consumed);
      } else {
        op := PlainTurn(o, start, t, now, h, e);
      }
    }

    /** `sched_perform_job`: the test of the interval comes first. */
    method PerformJob(o: nat -> Tick, start: nat, task: ListHead<Task>, ghost h: nat -> State, ghost e: nat)
      returns (now: Timespec, op: Outcome, k: nat)
      requires At(h, start, e) && Follows(h, o) && task !in Repr && h(start).pc == Judge(task.entry)
      modifies Repr
      ensures At(h, k, e) && fresh(Repr - old(Repr)) && task !in Repr && task.entry == old(task.entry) && start < k
      ensures h(k).pc == Settle(task.entry, now, op)
    {
      now := o(start).now;
      var due := JudgeTurn(o, start, task, h, e);
      op, k := NotElapsed, start + 1;
      if due {
        op, k := Dispatch(o, k, task.entry, now, h, e);
      }
    }

    /** A turn of the loop of `sched_consume`, from the clock to the second critical section. */
    method WorkOff(o: nat -> Tick, start: nat, task: ListHead<Task>, ghost h: nat -> State, ghost e: nat)
      returns (op: Outcome, k: nat)
      requires At(h, start, e) && Follows(h, o) && task !in Repr && h(start).pc == Judge(task.entry)
      modifies Repr, task
      ensures At(h, k, e) && fresh(Repr - old(Repr) - {task})
      ensures start < k && h(k).pc == if op == NetError then Flush else Pop
      ensures op == NetError ==> ErrorBefore(h, k)
    {
      var now;
      now, op, k := PerformJob(o, start, task, h, e);
      SettleTurn(o, k, task, now, op, h, e);
      k := k + 1;
    }

    /** One turn of the loop of `sched_consume`; `more` says that there was a task. */
    method OneJob(o: nat -> Tick, start: nat, ghost h: nat -> State, ghost e: nat)
      returns (more: bool, op: Outcome, k: nat)
      requires At(h, start, e) && Follows(h, o) && h(start).pc.Pop?
      modifies Repr
      ensures At(h, k, e) && fresh(Repr - old(Repr)) && start < k
      ensures h(k).pc == if !more then Back else if op == NetError then Flush else Pop
      ensures more && op == NetError ==> ErrorBefore(h, k)
    {
      var task := PopTurn(o, start, h, e);
      more, op, k := task != null, Consumed, start + 1;
      if more {
        op, k := WorkOff(o, k, task, h, e);
      }
    }

    /** The loop of `sched_consume`: it ends, if the other threads stop adding to the queue meanwhile. */
    method DrainJobs(o: nat -> Tick, start: nat, ghost h: nat -> State, ghost n: nat)
      returns (down: bool, k: nat, ghost e: nat)
      requires Ready() && view == Seen(h(start)) && Follows(h, o) && h(start).pc.Pop? && QuietInPass(h, o, start, n)
      modifies Repr
      ensures At(h, k, e) && fresh(Repr - old(Repr)) && start < k && EndsAt(h, start, e)
      ensures h(k).pc == if down then Flush else Back
      ensures down ==> ErrorBefore(h, k)
    {
      e := PassEnds(h, o, n, start, start);
      k := start;
      while true
        invariant At(h, k, e) && fresh(Repr - old(Repr)) && h(k).pc.Pop? && start <= k
        decreases e - k
      {
        var more, op;
        more, op, k := OneJob(o, k, h, e);
        if !more || op == NetError {
          return more, k, e;
        }
      }
    }

    /** What follows a network error: the triggers are flushed, the wrapper hears of it, and the
        connection is marked down. */
    method GoDown(o: nat -> Tick, k: nat, ghost h: nat -> State, ghost e: nat)
      requires At(h, k, e) && Follows(h, o) && h(k).pc.Flush?
      modifies Repr
      ensures Ready() && view == Seen(h(k + 3)) && fresh(Repr - old(Repr)) && h(k + 3).pc.Top? && k + 3 <= e
    {
      FlushTurn(o, k, h, e);
      AlertTurn(o, k + 1, h, e);
      DownTurn(o, k + 2, h, e);
    }

    /** What follows the loop. */
    method EndPass(o: nat -> Tick, start: nat, down: bool, ghost h: nat -> State, ghost e: nat) returns (k: nat)
      requires At(h, start, e) && Follows(h, o) && h(start).pc == if down then Flush else Back
      modifies Repr
      ensures Ready() && view == Seen(h(k)) && fresh(Repr - old(Repr)) && h(k).pc.Top?
      ensures k == (if down then start + 3 else start + 1) && k <= e
    {
      if down {
        GoDown(o, start, h, e);
        k := start + 3;
      } else {
        BackTurn(o, start, h, e);
        k := start + 1;
      }
    }

    /** `sched_consume`, step by step. */
    method RunPass(o: nat -> Tick, start: nat, ghost h: nat -> State, ghost n: nat)
      returns (down: bool, k: nat, ghost e: nat)
      requires Ready() && view == Seen(h(start)) && Follows(h, o) && h(start).pc.Pop? && QuietInPass(h, o, start, n)
      modifies Repr
      ensures Ready() && view == Seen(h(k)) && fresh(Repr - old(Repr)) && h(k).pc.Top?
      ensures EndsAt(h, start, e) && start < k <= e
      ensures if down then 3 < k && ErrorBefore(h, k - 3) else h(k - 1).pc.Back?
    {
      down, k, e := DrainJobs(o, start, h, n);
      k := EndPass(o, k, down, h, e);
    }

    /** `sched_consume`. It ends if the other threads at some time stop adding to the queue during the
        pass (see `PassEndsExactly`), and leaves what `PassDone` says. */
    method Consume(o: nat -> Tick, start: nat, ghost h: nat -> State, ghost n: nat) returns (down: bool, k: nat)
      requires Ready() && view == Seen(h(start)) && Follows(h, o) && Begun(h(start)) && QuietInPass(h, o, start, n)
      requires Reachable(h(start))
      modifies Repr
      ensures Ready() && view == Seen(h(k)) && fresh(Repr - old(Repr)) && start < k && h(k).pc.Top?
      ensures PassDone(h, o, start, k, down)
    {
      ghost var e;
      down, k, e := RunPass(o, start, h, n);
      PassAmounts(h, o, start, k, e, down);
    }

    // -------------------------------------------------------------- sched_loop

    /** The test of `stop`. */
    method TestStop(o: nat -> Tick, k: nat, ghost h: nat -> State) returns (stopped: bool)
      requires Ready() && view == Seen(h(k)) && Follows(h, o) && h(k).pc.Top?
      modifies Repr
      ensures Ready() && view == Seen(h(k + 1)) && fresh(Repr - old(Repr)) && (view.stop <==> stopped)
      ensures if stopped then h(k + 1).pc.Drain? else Begun(h(k + 1))
    {
      assert TurnsAt(h, o, k);
      TopSeen(h, o, k);
      Meantime(o, k, h);
      stopped := sched.stop;
    }

    /** What follows the loop: every task left is freed. */
    method DrainAll(o: nat -> Tick, k: nat, ghost h: nat -> State)
      requires Ready() && view == Seen(h(k)) && Follows(h, o) && h(k).pc.Drain?
      modifies Repr
      ensures Ready() && view == Seen(h(k + 1)) && fresh(Repr - old(Repr)) && h(k + 1).pc.Exited?
    {
      assert TurnsAt(h, o, k);
      DrainSeen(h, o, k);
      Meantime(o, k, h);
      FreeAll();
    }

    /** One turn of `sched_loop`. */
    method LoopOnce(o: nat -> Tick, start: nat, ghost h: nat -> State) returns (over: bool, k: nat)
      requires Ready() && view == Seen(h(start)) && h(start).pc.Top?
      requires Follows(h, o) && PassesQuiet(h, o) && Reachable(h(0))
      modifies Repr
      ensures Ready() && view == Seen(h(k)) && fresh(Repr - old(Repr)) && start < k
      ensures if over then h(k).pc.Exited? else h(k).pc.Top? && !h(start + 1).stop
    {
      over := TestStop(o, start, h);
      k := start + 1;
      if over {
        DrainAll(o, k, h);
        k := k + 1;
      } else {
        ghost var n :| QuietInPass(h, o, k, n);
        ReachedOn(h, o, 0, k);
        var down;
        down, k := Consume(o, k, h, n);
      }
    }

    /** `sched_loop` as far as its first `passes` passes, or until it is stopped, for an agent in service:
        in each pass the other threads at some time stop adding to the queue. */
    method ServeLoop(o: nat -> Tick, passes: nat, ghost h: nat -> State) returns (over: bool, k: nat)
      requires Ready() && view == Seen(h(0)) && h(0).pc.Top?
      requires Follows(h, o) && PassesQuiet(h, o) && Reachable(h(0))
      modifies Repr
      ensures Ready() && view == Seen(h(k)) && fresh(Repr - old(Repr))
      ensures if over then h(k).pc.Exited? && sched.Jobs == [] && sched.Todo == [] && sched.stop else h(k).pc.Top?
    {
      over, k := false, 0;
      var i := 0;
      while i < passes && !over
        invariant Ready() && view == Seen(h(k)) && fresh(Repr - old(Repr))
        invariant if over then h(k).pc.Exited? else h(k).pc.Top?
      {
        over, k := LoopOnce(o, k, h);
        i := i + 1;
      }
      if over {
        ExitedEmpty(h, o, k);
      }
    }

    /** `sched_loop` to its end, if `stop` is raised at some turn `i`, whatever the other threads do before
        or after: it ends, and leaves both lists empty. */
    method SchedLoop(o: nat -> Tick, ghost h: nat -> State, ghost i: nat) returns (k: nat)
      requires Ready() && view == Seen(h(0)) && h(0).pc.Top?
      requires Follows(h, o) && Reachable(h(0)) && h(i).stop
      modifies Repr
      ensures Ready() && view == Seen(h(k)) && fresh(Repr - old(Repr)) && h(k).pc.Exited?
      ensures sched.Jobs == [] && sched.Todo == [] && sched.stop
    {
      StoppedPassesQuiet(h, o, i);
      var over := false;
      k := 0;
      while !over
        invariant Ready() && view == Seen(h(k)) && fresh(Repr - old(Repr))
        invariant if over then h(k).pc.Exited? else h(k).pc.Top?
        decreases !over, i - k
      {
        ghost var start := k;
        over, k := LoopOnce(o, k, h);
        StopBy(h, o, i, start);
      }
      ExitedEmpty(h, o, k);
    }
  }
}
