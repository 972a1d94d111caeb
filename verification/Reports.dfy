/** The two other triggered requests of agent/net.c, for UE reports and for cell measurements: what adding and
    removing one comes to, and when one undoes the other. */
module Reports {
  import opened Clock
  import opened EmList
  import opened Tasks
  import opened Triggers
  import opened Machine
  import opened Framing
  import opened TriggerLife
  import opened Theorems
  import opened View
  import opened Agent
  import opened Handlers

  /** `net_te_ue_report` and `net_te_cell_meas_report`; `room` says for how much there is memory: 0 for
      nothing, 1 for the trigger, more for its task too. */
  function ReportRun(kind: Kind, add: bool, mod: int, msg: Bytes, room: nat, others: seq<Action>,
                     at: Timespec): seq<Action> {
    if !add then [Disown(kind, mod, 0)]
    else if room == 0 then []
    else OneRequest(kind, mod, 0, msg, others, room > 1, at)
  }

  method Report(e: Emage, kind: Kind, add: bool, mod: int, msg: Bytes, room: nat, others: seq<Action>, at: Timespec)
    requires e.Ready() && (kind == UeReport || kind == CellMeasure) && ApiOnly(others)
    modifies e.Repr
    ensures e.Ready() && fresh(e.Repr - old(e.Repr))
    ensures e.view == Foreigns(old(e.view), ReportRun(kind, add, mod, msg, room, others, at))
  {
    if !add {
      ForeignsOne(e.view, Disown(kind, mod, 0));
      e.Other(Disown(kind, mod, 0));
    } else if room > 0 {
      AddOne(e, kind, mod, 0, msg, others, room > 1, at);
    }
  }

  /** A report, callers of the API interfering, is a run of the machine. */
  lemma ReportIsRun(m: State, kind: Kind, add: bool, mod: int, msg: Bytes, room: nat, others: seq<Action>,
                    at: Timespec)
    requires ApiOnly(others)
    ensures var acts := ReportRun(kind, add, mod, msg, room, others, at);
      Seen(Exec(m, acts)) == Foreigns(Seen(m), acts)
  {
    RequestOthers(kind, mod, 0, msg, others, room > 1, at);
    SeenForeigns(m, ReportRun(kind, add, mod, msg, room, others, at));
  }

  // ------------------------------------------------------------- what they come to

  /** The key the trigger of such a request is filed under. */
  function ReportKey(kind: Kind, mod: int): Key {
    Key(mod, if kind == UeReport then 0 else 6, 0)
  }

  /** The key its removal looks for: `TR_TYPE_UE_REP`, or `TR_TYPE_MAC_REP`. */
  function RemovalKey(kind: Kind, mod: int): Key {
    Key(mod, if kind == UeReport then 0 else 2, 0)
  }

  /** Left alone, ADD with memory for both puts one trigger in front of the table and one task behind the queue;
      without memory for the task it leaves all but the counter as it was. */
  lemma ReportComesTo(v: Shared, kind: Kind, mod: int, msg: Bytes, room: nat, at: Timespec)
    requires v.npc.Idle? && (kind == UeReport || kind == CellMeasure) && v.next < INT_MAX
    ensures Foreigns(v, ReportRun(kind, true, mod, msg, room, [], at)) ==
      if room == 0 then v
      else if room == 1 then v.(next := v.next + 1)
      else v.(table := [Trigger(v.next, ReportKey(kind, mod), msg)] + v.table, next := v.next + 1, made := v.made + 1,
              jobs := if v.stop then v.jobs else v.jobs + [Task(v.made, kind, 1, 0, v.next, 0, at)])
  {
    if room == 1 {
      RequestHalf(v, kind, mod, 0, msg, at);
    } else if room > 1 {
      RequestAlone(v, kind, mod, 0, msg, at);
    }
  }

  /** Any other operation takes the first trigger with the key it looks for, and does nothing else. */
  lemma RemovalComesTo(v: Shared, kind: Kind, mod: int, msg: Bytes, room: nat, others: seq<Action>, at: Timespec)
    requires v.npc.Idle? && (kind == UeReport || kind == CellMeasure)
    ensures Foreigns(v, ReportRun(kind, false, mod, msg, room, others, at))
         == v.(table := RemoveFirst(v.table, HasKey(RemovalKey(kind, mod))))
  {
    var a := Disown(kind, mod, 0);
    ForeignsOne(v, a);
    DisownIs(v, a);
  }

  /** ADD while others send. */
  lemma ReportFiles(v: Shared, kind: Kind, mod: int, msg: Bytes, room: nat, others: seq<Action>, at: Timespec)
    requires v.npc.Idle? && (kind == UeReport || kind == CellMeasure) && v.next < INT_MAX && SendOnly(others)
    ensures var w := Foreigns(v, ReportRun(kind, true, mod, msg, room, others, at));
      && w.npc.Idle?
      && w.table == (if room > 1 then [Trigger(v.next, ReportKey(kind, mod), msg)] else []) + v.table
  {
    if room > 0 {
      RequestFiles(v, kind, mod, 0, ReportKey(kind, mod), msg, others, room > 1, at);
    }
  }

  /** For UE reports the removal always undoes what was added. */
  lemma UeReportRoundTrip(table: seq<Trigger>, g: Trigger, mod: int)
    requires g.key == Key(mod, TR_TYPE_UE_REP, 0)
    ensures RemoveFirst([g] + table, HasKey(Key(mod, TR_TYPE_UE_REP, 0))) == table
  {
  }

  /** Not so for cell measurements: what was just added always stays. */
  lemma CellMeasureStays(table: seq<Trigger>, g: Trigger, mod: int)
    requires g.key == Key(mod, TASK_TYPE_CELL_MEASURE, 0)
    ensures RemoveFirst([g] + table, HasKey(Key(mod, TR_TYPE_MAC_REP, 0)))
         == [g] + RemoveFirst(table, HasKey(Key(mod, TR_TYPE_MAC_REP, 0)))
  {
    var p := HasKey(Key(mod, TR_TYPE_MAC_REP, 0));
    var k := First(table, p);
    FirstIs([g] + table, p, k + 1);
    if k < |table| {
      assert Without([g] + table, k + 1) == [g] + Without(table, k);
    }
  }

  /** Nothing is ever filed under the type it looks for: removing a cell measurement does nothing. */
  lemma CellRemovalIdle(s: State, a: Action)
    requires Reachable(s) && a.Disown? && a.kind == CellMeasure
    ensures Next(s, a) == s
  {
    ReachableInv(s);
    var p := HasKey(DisownKey(a.kind, a.mod, a.instance));
    forall i | 0 <= i < |s.table| ensures !p(s.table[i]) {
      assert Genuine(s.minted, s.table[i]);
    }
    FirstIs(s.table, p, |s.table|);
  }

  /** What the removal leaves of the table after ADD. */
  lemma RemovedAfter(table: seq<Trigger>, kind: Kind, mod: int, g: Trigger, room: nat)
    requires g.key == ReportKey(kind, mod) && (kind == UeReport || kind == CellMeasure)
    ensures var now := RemoveFirst((if room > 1 then [g] else []) + table, HasKey(RemovalKey(kind, mod)));
      && (kind == UeReport ==> (now == table <==> room > 1 || NoneWith(table, Key(mod, TR_TYPE_UE_REP, 0))))
      && (kind == CellMeasure && NoneWith(table, Key(mod, TR_TYPE_MAC_REP, 0)) ==>
            now == (if room > 1 then [g] else []) + table)
  {
    RemoveShort(table, RemovalKey(kind, mod));
    assert [] + table == table;
    if room > 1 && kind == UeReport {
      UeReportRoundTrip(table, g, mod);
    } else if room > 1 {
      CellMeasureStays(table, g, mod);
    }
  }

  method AddReport(e: Emage, kind: Kind, mod: int, msg: Bytes, room: nat, others: seq<Action>, between: seq<Action>,
                   at: Timespec)
    requires e.Ready() && e.npc.Idle? && e.trig.next < INT_MAX && (kind == UeReport || kind == CellMeasure)
    requires SendOnly(others) && SendOnly(between)
    modifies e.Repr
    ensures e.Ready() && fresh(e.Repr - old(e.Repr)) && e.view.npc.Idle?
    ensures var g := Trigger(old(e.view.next), ReportKey(kind, mod), msg);
      e.view.table == (if room > 1 then [g] else []) + old(e.view.table)
  {
    ReportFiles(e.view, kind, mod, msg, room, others, at);
    Report(e, kind, true, mod, msg, room, others, at);
    SendsKeep(e.view, between);
    e.Others(between);
  }

  method RemoveReport(e: Emage, kind: Kind, mod: int, at: Timespec)
    requires e.Ready() && e.npc.Idle? && (kind == UeReport || kind == CellMeasure)
    modifies e.Repr
    ensures e.Ready() && fresh(e.Repr - old(e.Repr))
    ensures e.view.table == RemoveFirst(old(e.view.table), HasKey(RemovalKey(kind, mod)))
  {
    RemovalComesTo(e.view, kind, mod, [], 0, [], at);
    Report(e, kind, false, mod, [], 0, [], at);
  }

  /** The request and then its removal, in place, others sending meanwhile: a UE report leaves the table as it
      was just when its own trigger was there to be removed, or no older one with its key; a cell measurement
      leaves its trigger behind. */
  method ReportThenRemove(e: Emage, kind: Kind, mod: int, msg: Bytes, room: nat, others: seq<Action>,
                          between: seq<Action>, at: Timespec)
    requires e.Ready() && e.npc.Idle? && e.trig.next < INT_MAX && (kind == UeReport || kind == CellMeasure)
    requires SendOnly(others) && SendOnly(between)
    modifies e.Repr
    ensures e.Ready() && fresh(e.Repr - old(e.Repr))
    ensures kind == UeReport ==>
      (e.trig.Table == old(e.trig.Table) <==> room > 1 || NoneWith(old(e.trig.Table), Key(mod, TR_TYPE_UE_REP, 0)))
    ensures kind == CellMeasure && NoneWith(old(e.trig.Table), Key(mod, TR_TYPE_MAC_REP, 0)) ==>
      e.trig.Table == (if room > 1 then [Trigger(old(e.trig.next), Key(mod, TASK_TYPE_CELL_MEASURE, 0), msg)] else [])
                      + old(e.trig.Table)
  {
    ghost var v := e.view;
    AddReport(e, kind, mod, msg, room, others, between, at);
    RemoveReport(e, kind, mod, at);
    RemovedAfter(v.table, kind, mod, Trigger(v.next, ReportKey(kind, mod), msg), room);
  }
}
