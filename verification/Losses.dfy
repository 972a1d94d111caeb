/** Which refused tasks are freed, and which are lost. */
module Losses {
  import opened Tasks
  import opened Machine

  /** The lost tasks are exactly the refused ones, but for the Hello tasks: only `net_connected` frees the
      task that `sched_add_task` refuses it. */
  ghost predicate Lost(leaked: seq<nat>, l: seq<Record>, i: nat) {
    i in leaked <==> i < |l| && l[i].fate.Refused? && l[i].made.kind != Hello
  }

  ghost predicate LossesOk(s: State) {
    forall i: nat :: Lost(s.leaked, s.ledger, i)
  }

  /** The task a step offers to `sched_add_task`, if any, with the interval, the credits and the trigger that
      the callers of `task_alloc` write: only Hello tasks and scheduled cell measurements go round for ever. */
  function Offered(s: State, a: Action): seq<Task> {
    match a
    case Submit(size, at) => if size == 0 then [] else [Task(0, Send, 1, 0, 0, size, at)]
    case Greet(at) => if s.npc.Joined? then [Task(0, Hello, 2000, -1, 0, 0, at)] else []
    case Launch(at) => if s.npc.Armed? then [Task(0, s.npc.kind, 1, 0, s.npc.trigger.id, 0, at)] else []
    case Request(kind, elapse, at) =>
      if !s.npc.Idle? then []
      else if kind == EnbSetup || kind == Ho || kind == RanSetup || kind == RanSlice
      then [Task(0, kind, 1, 0, 0, 0, at)]
      else if kind == CellMeasure then [Task(0, CellMeasure, elapse, -1, 0, 0, at)]
      else []
    case _ => []
  }

  /** What becomes of a task offered: queued, or refused and freed, or refused and lost. */
  lemma OfferIs(s: State, a: Action)
    requires !BySched(a) && (s.npc.Armed? ==> s.npc.kind != Hello)
    ensures var r, ts := Next(s, a), Offered(s, a);
      && |ts| <= 1
      && (ts == [] ==> r.ledger == s.ledger && r.leaked == s.leaked && r.freed == s.freed && r.jobs == s.jobs)
      && (ts != [] ==>
            var t := ts[0].(serial := |s.ledger|);
            && r.ledger == s.ledger + [Record(t, [], if s.stop then Refused else Alive)]
            && r.jobs == (if s.stop then s.jobs else s.jobs + [t])
            && r.leaked == (if s.stop && t.kind != Hello then s.leaked + [t.serial] else s.leaked)
            && r.freed == (if s.stop && t.kind == Hello then s.freed + [t.serial] else s.freed))
  {
  }

  lemma OtherLosses(s: State, a: Action)
    requires LossesOk(s) && !BySched(a) && (s.npc.Armed? ==> s.npc.kind != Hello)
    ensures LossesOk(Next(s, a))
  {
    OfferIs(s, a);
    var r := Next(s, a);
    forall i: nat ensures Lost(r.leaked, r.ledger, i) {
      assert Lost(s.leaked, s.ledger, i);
    }
  }
}
