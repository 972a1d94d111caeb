/** Trigger ids over the life of an agent, and what tasks that hold only an id can reach with it. */
module TriggerLife {
  import opened Clock
  import opened Tasks
  import opened Triggers
  import opened Machine
  import opened Shapes
  import opened Framing

  /** `minted[i]` is the trigger that was given id `i + 1`. */
  ghost predicate Minted(minted: seq<Trigger>, next: int) {
    && next == |minted| + 1
    && forall i | 0 <= i < |minted| :: minted[i].id == i + 1
  }

  /** `g` is the trigger its id was given to. */
  predicate Genuine(minted: seq<Trigger>, g: Trigger) {
    1 <= g.id <= |minted| && g == minted[g.id - 1]
  }

  ghost predicate AllGenuine(minted: seq<Trigger>, table: seq<Trigger>) {
    forall i | 0 <= i < |table| :: Genuine(minted, table[i])
  }

  /** Newest first, so with strictly falling ids, and every trigger the one its id was given to. */
  ghost predicate TableOk(minted: seq<Trigger>, table: seq<Trigger>) {
    (forall i, j | 0 <= i < j < |table| :: table[i].id > table[j].id) && AllGenuine(minted, table)
  }

  /** Kinds of key that are ever filed: none is `TR_TYPE_MAC_REP`. */
  ghost predicate KindsOk(minted: seq<Trigger>) {
    forall i | 0 <= i < |minted| ::
      minted[i].key.kind == TR_TYPE_UE_MEAS || minted[i].key.kind == TR_TYPE_UE_REP
        || minted[i].key.kind == TASK_TYPE_CELL_MEASURE
  }

  /** The type a trigger for tasks of kind `k` is filed under. */
  function FiledType(k: Kind): int {
    if k == UeMeasure then TR_TYPE_UE_MEAS else if k == UeReport then TR_TYPE_UE_REP else TASK_TYPE_CELL_MEASURE
  }

  /** Tasks that are made for a trigger; a cell measurement that carries none is a scheduled one. */
  predicate MadeForTrigger(t: Task) {
    t.kind == UeReport || t.kind == UeMeasure || (t.kind == CellMeasure && t.trig > 0)
  }

  /** Such a task carries the id of a trigger of its own kind. */
  predicate Linked(minted: seq<Trigger>, t: Task) {
    MadeForTrigger(t) ==> 1 <= t.trig <= |minted| && minted[t.trig - 1].key.kind == FiledType(t.kind)
  }

  ghost predicate TasksOk(minted: seq<Trigger>, l: seq<Record>) {
    forall i | 0 <= i < |l| :: Linked(minted, l[i].made)
  }

  /** A callback made on behalf of such a task names the id of that very trigger, and its module, but for
      a UE report, which names module 0; one on behalf of any other task names no trigger. */
  predicate CallOk(minted: seq<Trigger>, l: seq<Record>, c: Call) {
    && c.serial < |l| && c.kind == l[c.serial].made.kind
    && var made := l[c.serial].made;
       if MadeForTrigger(made) then
         && 1 <= made.trig <= |minted| && c.trig == made.trig
         && c.mod == if made.kind == UeReport then 0 else minted[made.trig - 1].key.mod
       else c.trig == -1
  }

  ghost predicate CallsOk(minted: seq<Trigger>, l: seq<Record>, calls: seq<Call>) {
    forall i | 0 <= i < |calls| :: CallOk(minted, l, calls[i])
  }

  /** The task in hand is a task of the ledger. */
  predicate KnownTask(l: seq<Record>, t: Task) {
    t.serial < |l| && t.kind == l[t.serial].made.kind && t.trig == l[t.serial].made.trig
  }

  /** The trigger in hand is the one the task was made for. */
  predicate CallingOk(minted: seq<Trigger>, t: Task, g: Trigger) {
    NeedsTrigger(t) && Genuine(minted, g) && g.id == t.trig
  }

  ghost predicate TriggersKept(s: State) {
    && Minted(s.minted, s.next) && KindsOk(s.minted)
    && TableOk(s.minted, s.table)
    && (s.npc.Armed? ==> Genuine(s.minted, s.npc.trigger) && s.npc.trigger.key.kind == FiledType(s.npc.kind))
    && TasksOk(s.minted, s.ledger)
    && CallsOk(s.minted, s.ledger, s.calls)
    && (s.pc.Calling? ==> CallingOk(s.minted, s.pc.task, s.pc.trigger))
  }

  // ---------------------------------------------------- what the table promises

  /** A trigger of the table is the one that a search for its id finds. */
  lemma IdUnique(minted: seq<Trigger>, table: seq<Trigger>, i: nat)
    requires TableOk(minted, table) && i < |table|
    ensures First(table, HasId(table[i].id)) == i
  {
  }

  /** What a search by id finds is the trigger the id was given to; it fails only if that is gone. */
  lemma IdFound(minted: seq<Trigger>, table: seq<Trigger>, id: int)
    requires AllGenuine(minted, table)
    ensures var k := First(table, HasId(id));
      if k < |table| then 1 <= id <= |minted| && table[k] == minted[id - 1]
      else forall i | 0 <= i < |table| :: table[i].id != id
  {
  }

  /** A search by key picks the newest of the triggers that share it. */
  lemma KeyNewest(minted: seq<Trigger>, table: seq<Trigger>, key: Key, j: nat)
    requires TableOk(minted, table) && j < |table| && table[j].key == key
    ensures var k := First(table, HasKey(key));
      k <= j && table[k].key == key && table[j].id <= table[k].id
  {
    var k := First(table, HasKey(key));
    assert forall i | 0 <= i < k :: !HasKey(key)(table[i]);
    if k < j {
      assert table[k].id > table[j].id;
    }
  }

  lemma RemoveKeepsTable(minted: seq<Trigger>, table: seq<Trigger>, p: Trigger -> bool)
    requires TableOk(minted, table)
    ensures TableOk(minted, RemoveFirst(table, p))
    ensures forall t | t in RemoveFirst(table, p) :: t in table
  {
    var k := First(table, p);
    if k < |table| {
      var r := EmList.Without(table, k);
      assert forall i | 0 <= i < k :: r[i] == table[i];
      assert forall i | k <= i < |r| :: r[i] == table[i + 1];
    }
  }

  lemma GrowKeeps(minted: seq<Trigger>, g: Trigger, l: seq<Record>, table: seq<Trigger>, calls: seq<Call>)
    requires g.id == |minted| + 1
    requires TableOk(minted, table) && TasksOk(minted, l) && CallsOk(minted, l, calls)
    ensures TableOk(minted + [g], [g] + table)
    ensures TasksOk(minted + [g], l) && CallsOk(minted + [g], l, calls)
  {
  }

  /** `m` extends `l` and keeps what was made. */
  ghost predicate SameMade(l: seq<Record>, m: seq<Record>) {
    |l| <= |m| && forall i | 0 <= i < |l| :: m[i].made == l[i].made
  }

  lemma LedgerKeeps(minted: seq<Trigger>, l: seq<Record>, m: seq<Record>, calls: seq<Call>)
    requires CallsOk(minted, l, calls) && SameMade(l, m)
    ensures CallsOk(minted, m, calls)
  {
  }

  // -------------------------------------------------------------------- steps

  lemma TasksKeep(minted: seq<Trigger>, l: seq<Record>, r: Record)
    requires TasksOk(minted, l) && Linked(minted, r.made)
    ensures TasksOk(minted, l + [r])
  {
  }

  /** A task more, made for a trigger of its kind if for one at all. */
  lemma GrownTriggers(s: State, r: State, t: Task)
    requires TriggersKept(s) && Linked(s.minted, t)
    requires r.minted == s.minted && r.next == s.next && r.table == s.table && r.calls == s.calls && r.pc == s.pc
    requires r.npc == s.npc || !r.npc.Armed?
    requires |r.ledger| == |s.ledger| + 1 && s.ledger == r.ledger[..|s.ledger|]
    requires r.ledger[|s.ledger|].made == t.(serial := |s.ledger|)
    ensures TriggersKept(r)
  {
    assert r.ledger == s.ledger + [r.ledger[|s.ledger|]];
    TasksKeep(s.minted, s.ledger, r.ledger[|s.ledger|]);
    LedgerKeeps(s.minted, s.ledger, r.ledger, s.calls);
  }

  lemma ArmTriggers(s: State, kind: Kind, mod: int, instance: int, msg: Bytes)
    requires TriggersKept(s)
    ensures TriggersKept(ArmedWith(s, kind, ArmKey(kind, mod, instance), msg))
  {
    var g := Trigger(s.next, ArmKey(kind, mod, instance), msg);
    GrowKeeps(s.minted, g, s.ledger, s.table, s.calls);
  }

  lemma RemoveTriggers(s: State, p: Trigger -> bool)
    requires TriggersKept(s)
    ensures TriggersKept(s.(table := RemoveFirst(s.table, p)))
  {
    RemoveKeepsTable(s.minted, s.table, p);
  }

  lemma GreetTriggers(s: State, a: Action)
    requires TriggersKept(s) && a.Greet?
    ensures TriggersKept(Next(s, a))
  {
    if s.npc.Joined? {
      AddedShape(s, HelloTask(a.at), true);
      GrownTriggers(s, GreetedAt(s, a.at), HelloTask(a.at));
    }
  }

  lemma LaunchTriggers(s: State, a: Action)
    requires TriggersKept(s) && a.Launch?
    ensures TriggersKept(Next(s, a))
  {
    if s.npc.Armed? {
      var t := TriggerTask(s.npc.kind, s.npc.trigger, a.at);
      AddedShape(s, t, false);
      GrownTriggers(s, Launched(s, s.npc.kind, s.npc.trigger, a.at), t);
    }
  }

  lemma AddTriggers(s: State, t: Task)
    requires TriggersKept(s) && Linked(s.minted, t)
    ensures TriggersKept(AddTask(s, t, false))
  {
    AddedShape(s, t, false);
    GrownTriggers(s, AddTask(s, t, false), t);
  }

  lemma RequestTriggers(s: State, a: Action)
    requires TriggersKept(s) && a.Request?
    ensures TriggersKept(Next(s, a))
  {
    if Requested(a.kind) {
      AddTriggers(s, RequestTask(a.kind, a.elapse, a.at));
    }
  }

  lemma SubmitTriggers(s: State, a: Action)
    requires TriggersKept(s) && a.Submit?
    ensures TriggersKept(Next(s, a))
  {
    AddTriggers(s, SendTask(a.size, a.at));
  }

  lemma DisarmTriggers(s: State, a: Action)
    requires TriggersKept(s) && a.Disarm?
    ensures TriggersKept(Next(s, a))
  {
    if s.npc.Armed? {
      RemoveTriggers(s, HasId(s.npc.trigger.id));
    }
  }

  lemma DisownTriggers(s: State, a: Action)
    requires TriggersKept(s) && a.Disown?
    ensures TriggersKept(Next(s, a))
  {
    RemoveTriggers(s, HasKey(DisownKey(a.kind, a.mod, a.instance)));
  }

  lemma DeleteTriggers(s: State, a: Action)
    requires TriggersKept(s) && a.DelTrigger?
    ensures TriggersKept(Next(s, a))
  {
    RemoveTriggers(s, HasId(a.id));
  }

  lemma SignalTriggers(s: State, a: Action)
    requires TriggersKept(s) && (a.Connect? || a.MarkUp? || a.Hangup? || a.RaiseStop?)
    ensures TriggersKept(Next(s, a))
  {
  }

  lemma NewTriggers(s: State, a: Action)
    requires TriggersKept(s) && a.Arm?
    ensures TriggersKept(Next(s, a))
  {
    ArmTriggers(s, a.kind, a.mod, a.instance, a.msg);
  }

  lemma OtherTriggers(s: State, a: Action)
    requires TriggersKept(s) && !BySched(a)
    ensures TriggersKept(Next(s, a))
  {
    match a
    case Greet(_) => GreetTriggers(s, a);
    case Launch(_) => LaunchTriggers(s, a);
    case Request(_, _, _) => RequestTriggers(s, a);
    case Submit(_, _) => SubmitTriggers(s, a);
    case Arm(_, _, _, _) => NewTriggers(s, a);
    case Disarm => DisarmTriggers(s, a);
    case Disown(_, _, _) => DisownTriggers(s, a);
    case DelTrigger(_) => DeleteTriggers(s, a);
    case _ => SignalTriggers(s, a);
  }

  lemma PlainTriggers(s: State, t: Task, now: Timespec, called: bool, mod: int)
    requires TriggersKept(s) && KnownTask(s.ledger, t)
    ensures TriggersKept(Plainly(s, t, now, called, mod))
  {
  }

  lemma LookupTriggers(s: State, t: Task, now: Timespec, provided: bool, count: nat)
    requires TriggersKept(s) && KnownTask(s.ledger, t)
    ensures TriggersKept(LookedUp(s, t, now, provided, count))
  {
  }

  lemma CallTriggers(s: State)
    requires TriggersKept(s) && s.pc.Calling? && KnownTask(s.ledger, s.pc.task)
    ensures TriggersKept(CalledBack(s, s.pc.task, s.pc.now, s.pc.trigger, s.pc.left))
  {
  }

  /** What touches neither triggers nor callbacks nor what tasks were made as keeps all. */
  lemma SameTriggers(s: State, r: State)
    requires TriggersKept(s)
    requires r.minted == s.minted && r.next == s.next && r.npc == s.npc && r.calls == s.calls
    requires (r.table == s.table || r.table == []) && !r.pc.Calling?
    requires |r.ledger| == |s.ledger| && SameMade(s.ledger, r.ledger)
    ensures TriggersKept(r)
  {
    LedgerKeeps(s.minted, s.ledger, r.ledger, s.calls);
  }

  lemma LedgerTriggers(s: State, a: Action)
    requires TriggersKept(s) && (a.ReadClock? || a.SettleJob? || a.FinalDrain?)
    ensures TriggersKept(SchedNext(s, a))
  {
    if a.ReadClock? && s.pc.Judge? {
      JudgedShape(s, s.pc.task, a.now);
      SameTriggers(s, Judged(s, s.pc.task, a.now));
    } else if a.SettleJob? && s.pc.Settle? {
      SettledShape(s, s.pc.task, s.pc.now, s.pc.op);
      SameTriggers(s, Settled(s, s.pc.task, s.pc.now, s.pc.op));
    } else if a.FinalDrain? && s.pc.Drain? {
      SameTriggers(s, Drained(s));
    }
  }

  lemma SchedTriggers(s: State, a: Action)
    requires TriggersKept(s) && BySched(a) && forall t | t in Flight(s.pc) :: KnownTask(s.ledger, t)
    ensures TriggersKept(SchedNext(s, a))
  {
    if a.Plain? && s.pc.Perform? {
      PlainTriggers(s, s.pc.task, s.pc.now, a.called, a.mod);
    } else if a.Lookup? && s.pc.Perform? {
      LookupTriggers(s, s.pc.task, s.pc.now, a.provided, a.count);
    } else if a.Callback? && s.pc.Calling? {
      CallTriggers(s);
    } else if a.ReadClock? || a.SettleJob? || a.FinalDrain? {
      LedgerTriggers(s, a);
    }
  }
}
