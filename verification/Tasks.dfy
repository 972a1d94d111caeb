/** The tasks of agent/task.h, what performing one can answer (agent/sched.c), and sequences of them. */
module Tasks {
  import opened Clock

  datatype Kind =
    | Invalid | Send | Hello | EnbSetup | UeReport | UeMeasure | CellMeasure | Ho | RanSetup | RanSlice

  /** `emtask`, without its list member. `serial` numbers the allocations and stands for the pointer;
      `size` is `msg_size`. `mod` is left out: nothing ever assigns it. */
  datatype Task = Task(serial: nat, kind: Kind, elapse: int, resch: int, trig: int, size: nat, issued: Timespec)

  /** The `TASK_*` codes of `sched_perform_job`. */
  datatype Outcome = NetError | Consumed | NotElapsed | Reschedule

  /** The end of `sched_perform_job`: a consumed task with reschedule credit left goes round again. */
  function Finish(t: Task, s: Outcome): Outcome {
    if s == Consumed && t.resch != 0 then Reschedule else s
  }

  /** The task put back by `TASK_RESCHEDULE`: re-stamped, and one credit shorter if credits are counted. */
  function Restamped(t: Task, now: Timespec): Task {
    t.(issued := now, resch := if t.resch > 0 then t.resch - 1 else t.resch)
  }

  /** `performing` such a task can run code of the wrapper, which may call back into the agent. */
  predicate RunsCallback(k: Kind) {
    k != Send && k != Hello && k != Invalid
  }

  function CallbackTasks(ts: seq<Task>): nat {
    if ts == [] then 0 else (if RunsCallback(ts[0].kind) then 1 else 0) + CallbackTasks(ts[1..])
  }

  function Hellos(ts: seq<Task>): nat {
    if ts == [] then 0 else (if ts[0].kind == Hello then 1 else 0) + Hellos(ts[1..])
  }

  function Serials(ts: seq<Task>): (r: seq<nat>)
    ensures |r| == |ts| && forall i | 0 <= i < |ts| :: r[i] == ts[i].serial
  {
    seq(|ts|, i requires 0 <= i < |ts| => ts[i].serial)
  }

  function Reverse<X>(s: seq<X>): (r: seq<X>)
    ensures |r| == |s|
  {
    if s == [] then [] else Reverse(s[1..]) + [s[0]]
  }

  lemma {:induction false} ReverseAppend<X>(s: seq<X>, x: X)
    ensures Reverse(s + [x]) == [x] + Reverse(s)
  {
    if s != [] {
      ReverseAppend(s[1..], x);
      assert (s + [x])[1..] == s[1..] + [x];
    }
  }

  lemma {:induction false} ReverseTwice<X>(s: seq<X>)
    ensures Reverse(Reverse(s)) == s
  {
    if s != [] {
      ReverseAppend(Reverse(s[1..]), s[0]);
      ReverseTwice(s[1..]);
    }
  }

  lemma {:induction false} HellosAdd(a: seq<Task>, b: seq<Task>)
    ensures Hellos(a + b) == Hellos(a) + Hellos(b)
  {
    if a == [] {
      assert a + b == b;
    } else {
      HellosAdd(a[1..], b);
      assert (a + b)[1..] == a[1..] + b;
    }
  }

  lemma {:induction false} CallbackTasksAdd(a: seq<Task>, b: seq<Task>)
    ensures CallbackTasks(a + b) == CallbackTasks(a) + CallbackTasks(b)
  {
    if a == [] {
      assert a + b == b;
    } else {
      CallbackTasksAdd(a[1..], b);
      assert (a + b)[1..] == a[1..] + b;
    }
  }
}
