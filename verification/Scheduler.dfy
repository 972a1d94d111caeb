/** The scheduling context of agent/sched.c in place: its two lists, and what each critical section
    does to them. */
module Scheduler {
  import opened Clock
  import opened EmList
  import opened Tasks

  // -------------------------------------------------- two lists side by side

  ghost predicate TwoRings(h: ListHead<Task>, a: seq<ListHead<Task>>, g: ListHead<Task>, b: seq<ListHead<Task>>)
    reads h, a, g, b
  {
    Ring(h, a) && Ring(g, b) && Apart(h, a, g, b)
  }

  method AddTail(n: ListHead<Task>, h: ListHead<Task>, ghost a: seq<ListHead<Task>>, ghost g: ListHead<Task>,
                 ghost b: seq<ListHead<Task>>)
    requires TwoRings(h, a, g, b) && n !in a && n !in b && n != h && n != g
    modifies ({h, n} + set x | x in a)`next, ({h, n} + set x | x in a)`prev
    ensures TwoRings(h, a + [n], g, b)
  {
    assert h.prev !in b;
    ListAddTail(n, h, a);
  }

  method AddFront(n: ListHead<Task>, g: ListHead<Task>, ghost b: seq<ListHead<Task>>, ghost h: ListHead<Task>,
                  ghost a: seq<ListHead<Task>>)
    requires TwoRings(h, a, g, b) && n !in a && n !in b && n != h && n != g
    modifies ({g, n} + set x | x in b)`next, ({g, n} + set x | x in b)`prev
    ensures TwoRings(h, a, g, [n] + b)
  {
    assert g.next !in a;
    ListAdd(n, g, b);
  }

  method TakeFirst(h: ListHead<Task>, ghost a: seq<ListHead<Task>>, ghost g: ListHead<Task>,
                   ghost b: seq<ListHead<Task>>)
    returns (n: ListHead<Task>)
    requires TwoRings(h, a, g, b) && a != []
    modifies ({h} + set x | x in a)`next, ({h} + set x | x in a)`prev
    ensures n == a[0] && TwoRings(h, Without(a, 0), g, b) && n !in Without(a, 0)
  {
    n := h.next;
    assert n !in b && n.next !in b;
    DeleteShape(a, 0);
    ListDel(n, h, a, 0);
  }

  method FreeList(h: ListHead<Task>, ghost a: seq<ListHead<Task>>, ghost e: seq<Task>, ghost g: ListHead<Task>,
                 ghost b: seq<ListHead<Task>>) returns (gone: seq<Task>)
    requires TwoRings(h, a, g, b) && Holds(a, e)
    modifies ({h} + set x | x in a)`next, ({h} + set x | x in a)`prev
    ensures TwoRings(h, [], g, b) && TwoRings(g, b, h, []) && gone == e
  {
    gone := ListFreeAll(h, a, e);
  }

  method MoveAll(g: ListHead<Task>, h: ListHead<Task>, ghost b: seq<ListHead<Task>>, ghost a: seq<ListHead<Task>>)
    requires TwoRings(h, a, g, b)
    modifies ({h, g} + (set x | x in b) + (set x | x in a))`next
    modifies ({h, g} + (set x | x in b) + (set x | x in a))`prev
    ensures TwoRings(h, MovedAll(b, a), g, [])
    ensures forall x | x in MovedAll(b, a) :: x in a || x in b
  {
    assert Apart(g, b, h, a);
    ListMoveAll(g, h, b, a);
  }

  /** What the second critical section of a turn does to `todo`. */
  function AfterTodo(todo: seq<Task>, t: Task, now: Timespec, op: Outcome): seq<Task> {
    match op
    case NotElapsed => [t] + todo
    case Reschedule => [Restamped(t, now)] + todo
    case Consumed => todo
    case NetError => []
  }

  /** And what it adds to the tasks released, when `queued` are on the lists. */
  function AfterFreed(freed: seq<nat>, queued: seq<Task>, t: Task, op: Outcome): seq<nat> {
    match op
    case NotElapsed => freed
    case Reschedule => freed
    case Consumed => freed + [t.serial]
    case NetError => freed + [t.serial] + Serials(queued)
  }

  class SchCtx {
    var stop: bool
    const jobs: ListHead<Task>
    const todo: ListHead<Task>
    ghost var jobNodes: seq<ListHead<Task>>
    ghost var todoNodes: seq<ListHead<Task>>
    ghost var Repr: set<object>
    ghost var Jobs: seq<Task>
    ghost var Todo: seq<Task>
    /** The serials of the tasks released so far, in order. */
    ghost var freed: seq<nat>

    /** The lists are well-formed in their links, share no node, and hold the tasks of `Jobs` and `Todo`. */
    ghost predicate Kept(a: Aspect)
      reads this, jobs, todo, jobNodes, todoNodes
    {
      match a
      case Links => TwoRings(jobs, jobNodes, todo, todoNodes)
      case Entries => Holds(jobNodes, Jobs) && Holds(todoNodes, Todo)
    }

    ghost predicate Valid()
      reads this, Repr
    {
      && this in Repr && jobs in Repr && todo in Repr
      && (forall x | x in jobNodes :: x in Repr) && (forall x | x in todoNodes :: x in Repr)
      && forall a :: Kept(a)
    }

    /** As `em_start` and `sched_start` prepare it. */
    constructor ()
      ensures Valid() && fresh(Repr) && Jobs == [] && Todo == [] && !stop && freed == []
    {
      stop := false;
      jobs := new ListHead<Task>.Head();
      todo := new ListHead<Task>.Head();
      jobNodes, todoNodes, Jobs, Todo, freed := [], [], [], [], [];
      Repr := {this, jobs, todo};
    }

    /** What `sched_stop` tells the scheduler. */
    method RaiseStop()
      requires Valid()
      modifies `stop
      ensures Valid() && stop
    {
      assert Kept(Links) && Kept(Entries);
      stop := true;
    }

    /** `sched_add_task`. */
    method AddTask(task: ListHead<Task>, clock: Timespec) returns (r: int)
      requires Valid() && task !in Repr
      modifies Repr, task
      ensures Valid() && task.entry == old(task.entry).(issued := clock)
      ensures r == if stop then -1 else 0
      ensures Jobs == if stop then old(Jobs) else old(Jobs) + [task.entry]
      ensures Repr == if stop then old(Repr) else old(Repr) + {task}
      ensures Todo == old(Todo) && stop == old(stop) && freed == old(freed)
    {
      task.entry := task.entry.(issued := clock);
      if stop {
        return -1;
      }
      Link(task);
      return 0;
    }

    method Link(task: ListHead<Task>)
      requires Valid() && task !in Repr
      modifies Repr, task
      ensures Valid() && Repr == old(Repr) + {task} && task.entry == old(task.entry)
      ensures Jobs == old(Jobs) + [task.entry] && Todo == old(Todo) && stop == old(stop) && freed == old(freed)
    {
      assert Kept(Links) && Kept(Entries);
      AddTail(task, jobs, jobNodes, todo, todoNodes);
      jobNodes, Jobs, Repr := jobNodes + [task], Jobs + [task.entry], Repr + {task};
    }

    /** `task_alloc`, `sched_add_task`, and `task_free` of a refused task if the caller is one of those
        that see to it (`owned`). */
    method Offer(t: Task, owned: bool)
      requires Valid()
      modifies Repr
      ensures Valid() && fresh(Repr - old(Repr)) && Todo == old(Todo) && stop == old(stop)
      ensures Jobs == if stop then old(Jobs) else old(Jobs) + [t]
      ensures freed == if owned && stop then old(freed) + [t.serial] else old(freed)
    {
      var task := new ListHead<Task>.Entry(t);
      var r := AddTask(task, t.issued);
      if r < 0 && owned {
        Free(task);
      }
    }

    /** The first critical section of a turn: the first task, or null. */
    method Pop() returns (task: ListHead?<Task>)
      requires Valid()
      modifies Repr
      ensures Valid() && Repr <= old(Repr)
      ensures old(Jobs) == [] ==> task == null && Jobs == []
      ensures old(Jobs) != [] ==> task != null && task in old(Repr) && task !in Repr
      ensures old(Jobs) != [] ==> task.entry == old(Jobs)[0] && Jobs == old(Jobs)[1..]
      ensures Todo == old(Todo) && stop == old(stop) && freed == old(freed)
    {
      assert Kept(Links) && Kept(Entries);
      if ListEmpty(jobs) {
        return null;
      }
      task := TakeFirst(jobs, jobNodes, todo, todoNodes);
      jobNodes, Jobs, Repr := Without(jobNodes, 0), Jobs[1..], Repr - {task};
    }

    /** A task put on `todo`. */
    method Park(task: ListHead<Task>)
      requires Valid() && task !in Repr
      modifies Repr, task
      ensures Valid() && Repr == old(Repr) + {task}
      ensures Todo == [old(task.entry)] + old(Todo) && task.entry == old(task.entry)
      ensures Jobs == old(Jobs) && stop == old(stop) && freed == old(freed)
    {
      assert Kept(Links) && Kept(Entries);
      AddFront(task, todo, todoNodes, jobs, jobNodes);
      todoNodes, Todo, Repr := [task] + todoNodes, [task.entry] + Todo, Repr + {task};
    }

    /** `task_free`. */
    method Free(task: ListHead<Task>)
      requires Valid()
      modifies `freed
      ensures Valid() && freed == old(freed) + [task.entry.serial]
    {
      assert Kept(Links) && Kept(Entries);
      freed := freed + [task.entry.serial];
    }

    /** Both lists freed, `todo` first. */
    method Dump()
      requires Valid()
      modifies Repr
      ensures Valid() && Repr == old(Repr)
      ensures Jobs == [] && Todo == []
      ensures freed == old(freed) + Serials(old(Todo) + old(Jobs)) && stop == old(stop)
    {
      assert Serials(Todo + Jobs) == Serials(Todo) + Serials(Jobs);
      DumpTodo();
      DumpJobs();
    }

    method DumpTodo()
      requires Valid()
      modifies Repr
      ensures Valid() && Repr == old(Repr) && stop == old(stop)
      ensures Todo == [] && Jobs == old(Jobs) && freed == old(freed) + Serials(old(Todo))
    {
      assert Kept(Links) && Kept(Entries);
      var gone := FreeList(todo, todoNodes, Todo, jobs, jobNodes);
      freed := freed + Serials(gone);
      todoNodes, Todo := [], [];
    }

    method DumpJobs()
      requires Valid()
      modifies Repr
      ensures Valid() && Repr == old(Repr) && stop == old(stop)
      ensures Jobs == [] && Todo == old(Todo) && freed == old(freed) + Serials(old(Jobs))
    {
      assert Kept(Links) && Kept(Entries);
      var gone := FreeList(jobs, jobNodes, Jobs, todo, todoNodes);
      freed := freed + Serials(gone);
      jobNodes, Jobs := [], [];
    }

    /** The second critical section of a turn: the task is parked or freed, and after a network error
        nothing stays. */
    method Settle(task: ListHead<Task>, now: Timespec, op: Outcome)
      requires Valid() && task !in Repr
      modifies Repr, task
      ensures Valid() && stop == old(stop)
      ensures Repr == if op == NotElapsed || op == Reschedule then old(Repr) + {task} else old(Repr)
      ensures Jobs == if op == NetError then [] else old(Jobs)
      ensures Todo == AfterTodo(old(Todo), old(task.entry), now, op)
      ensures freed == AfterFreed(old(freed), old(Todo + Jobs), old(task.entry), op)
    {
      match op
      case NotElapsed =>
        Park(task);
      case Reschedule =>
        task.entry := Restamped(task.entry, now);
        Park(task);
      case Consumed =>
        Free(task);
      case NetError =>
        Free(task);
        Dump();
    }

    /** The last critical section of a pass. */
    method MoveBack()
      requires Valid()
      modifies Repr
      ensures Valid() && Repr == old(Repr)
      ensures Todo == [] && Jobs == MovedAll(old(Todo), old(Jobs))
      ensures stop == old(stop) && freed == old(freed)
    {
      assert Kept(Links) && Kept(Entries);
      MoveAll(todo, jobs, todoNodes, jobNodes);
      HoldsMoved(todoNodes, Todo, jobNodes, Jobs);
      jobNodes, todoNodes := MovedAll(todoNodes, jobNodes), [];
      Jobs, Todo := MovedAll(Todo, Jobs), [];
    }
  }
}
