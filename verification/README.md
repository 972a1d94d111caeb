# The agent's scheduler, trigger table and network loop

A model of the eNB agent in Dafny: the intrusive lists, the task scheduler built on them, the trigger table, the loop
that receives messages from the controller, and the three threads that share all this. What the code promises is
proved for every input, every interleaving and every run.

`dafny verify dfyconfig.toml` checks everything.

## How it is built

- `EmList.dfy` is `agent/emlist.h`: nodes on the heap, a ring invariant, and every operation against the sequence of
  nodes it stands for.
- `Scheduler.dfy` and `Triggers.dfy` are the scheduling context and the trigger context, each with its lists in place.
- `Machine.dfy` is the agent as a state machine. One step is one critical section, or one access to shared memory
  outside any, of the scheduler thread, the network thread, or a caller of the API (a callback of the wrapper is one).
  History fields record every task ever allocated, every trigger ever numbered, every callback and the current pass.
- `Shapes.dfy` says what each step may change. `Conservation.dfy`, `Books.dfy`, `TriggerLife.dfy`, `Order.dfy`,
  `Session.dfy` and `Losses.dfy` each prove one family of invariants step by step; `Runs.dfy` carries them over whole
  runs, and `Theorems.dfy` states what follows for a reachable state. `Makings.dfy` says what the tasks of each kind are
  made as, and how often they are performed.
- `Turns.dfy` follows the scheduler thread turn by turn with the others interfering; `Endings.dfy` proves when a pass and
  the loop end, `Passes.dfy` what a pass amounts to, and `Performing.dfy` what performing a task of each kind comes to.
- `View.dfy` is what the contexts in memory show of a state of the machine. `Agent.dfy` is the code of `sched_consume`
  and `sched_loop`, and of every step of the other threads, over the three contexts in place.
- `Handlers.dfy` and `Reports.dfy` are the code of the triggered requests, and the round trips between adding and
  removing.
- `Framing.dfy`, `Receiver.dfy` and `NetLoop.dfy` are the framing of a byte stream, the network thread as a function
  of what it meets, and its code over the receive buffer. `Stalls.dfy` follows that thread look by look: when it ends,
  when it notices a closed connection, when it comes up again. `Streams.dfy` adds what the controller sent.

What the agent learns from outside comes in as data: the clock, the results of `recv`, `send`, `socket` and `connect`,
the length of a formatted Hello, which callbacks the wrapper provides, how many measurements a message asks for, and
whether memory can be had for a trigger or its task. `epp_msg_length` is an arbitrary function of the header.

## What the code does not keep

Where the code and what it seems to promise differ, the model follows the code.

- The comment at `agent/sched.c:615` grants a task a sleep of at least its interval. `ts_diff_to_ms` truncates the
  nanoseconds towards zero, so a task may run up to a millisecond early (`Clock.ElapsedExactly` says exactly when).
- A cell measurement trigger is filed under `TASK_TYPE_CELL_MEASURE` (`agent/net.c:738`) and its removal looks for
  `TR_TYPE_MAC_REP` (`agent/net.c:747`), a type nothing is ever filed under: the removal never removes anything.
- A UE report task passes its trigger id on unchecked, and the field `mod` of a task, which nothing assigns
  (`agent/sched.c:423`): it calls back for deleted triggers, and with module 0 (`Theorems.StaleCallsExactly` and
  `Theorems.CallsGenuine` say exactly when that is wrong).
- A Hello task lives until a network error of the scheduler thread or the end. When it is the network thread that finds
  the connection lost, the old Hello task stays and reconnecting adds another (`Theorems.HellosPileUp`;
  `Theorems.HellosExactly` says exactly when more than one is alive).
- A refused task is freed by `net_connected` only. `core_send` and `net_sched_task` lose it (`agent/core.c:190`,
  `agent/net.c:378`): `Theorems.LostExactly` and `Theorems.LosesExactly` say which tasks are lost, and when.
- A pass of `sched_consume` goes on for as long as other threads add tasks (`Endings.PassEndsExactly`), so it may never
  end, until `stop` is raised.
- `net_loop` reads `errno` also when `recv` returned 0, which does not set it (`agent/net.c:1093`). A connection that
  the controller has closed is given up just when the last call that failed left something else than `EAGAIN`
  (`Stalls.NoticedExactly`), so after any idle wait it is never given up (`Stalls.ClosedWhenIdle`).
- `net_not_connected` gives the socket up and lowers the status separately, so another thread may lower the status of a
  connection that has just come up and leave its socket (`Stalls.GetsStranded`). No new socket is then made
  (`agent/net.c:238-303`), and the thread is as good as `connect` on the old one (`Stalls.StrandedExactly`).
- The removal of a measurement request takes triggers by key. After an ADD that ran out of memory, or with ids that were
  never added, it takes older triggers of the same module and UE (`Handlers.PartUndone`, `Handlers.UeMeasureRoundTrip`).

## Model

| member | source | states |
|---|---|---|
| EmList.ListHead.Head | agent/emlist.h:73-77 | a new list head is an empty ring |
| EmList.ListInsert | agent/emlist.h:86-100 | linking a node between two neighbours puts it at that place of the sequence, and keeps the ring well-formed |
| EmList.ListAdd | agent/emlist.h:109-112 | the node becomes the first |
| EmList.ListAddTail | agent/emlist.h:123-126 | the node becomes the last |
| EmList.ListUnlink | agent/emlist.h:135-139 | the neighbours of an entry close the ring without it; the entry keeps its links |
| EmList.ListDel | agent/emlist.h:153-158 | the ring without the entry, whose links are poisoned |
| EmList.ListDelInit | agent/emlist.h:191-195 | the ring without the entry, which becomes an empty ring of its own |
| EmList.ListReplace | agent/emlist.h:171-178 | an entry is exchanged for the new node; replacing a head hands its entries over, an empty old head included, which ends up overwritten |
| EmList.ListReplaceInit | agent/emlist.h:180-186 | as before, and the old node ends as an empty ring |
| EmList.ListMove | agent/emlist.h:202-206 | an entry leaves its ring and becomes the first of another ring, or of the same one |
| EmList.ListMoveTail | agent/emlist.h:213-218 | the same to the back |
| EmList.QueriesAnswer | agent/emlist.h:225-280 | on a well-formed ring `list_empty` and `list_empty_careful` answer whether the sequence is empty, `list_is_singular` whether it has one element, `list_is_last` whether the entry is its last |
| EmList.ListFreeAll | agent/emlist.h:541-545 | the delete-while-iterating loop frees each entry once, first to last, and leaves an empty ring |
| EmList.ListMoveAll | agent/sched.c:852-855 | the move-while-iterating loop empties the one ring and puts its entries, one after the other, in front of the other |
| EmList.HoldsMoved | agent/sched.c:852-855 | what the nodes hold moves along with them |
| EmList.ListRotateLeft | agent/emlist.h:263-271 | the first entry becomes the last; an empty list stays |
| EmList.RotationPeriod | agent/emlist.h:263-271 | n rotations of n entries are the identity, and k of them move k entries to the back |
| EmList.ListCutPosition | agent/emlist.h:308-320 | the entries up to and including the given one go to the new list, the others stay; nothing happens to an empty list, and cutting at the head itself gives an empty list |
| EmList.JoinedRing | agent/emlist.h:322-334 | the links a splice leaves make one well-formed ring of both lists |
| EmList.ListSplice | agent/emlist.h:341-346 | the entries go to the front, in order; the old head is left stale |
| EmList.ListSpliceTail | agent/emlist.h:353-358 | the entries go to the back, in order |
| EmList.ListSpliceInit | agent/emlist.h:367-375 | as `list_splice`, and the old head ends as an empty ring |
| EmList.ListSpliceTailInit | agent/emlist.h:384-392 | as `list_splice_tail`, and the old head ends as an empty ring |
| EmList.CutThenSplice | agent/emlist.h:308-346 | cutting at any member and splicing back gives the original list, node for node |
| Clock.DiffWithinOneMs | agent/sched.c:30-32 | the truncating macro is within strictly less than a millisecond of the real difference, and in which direction |
| Clock.ElapsedExactly | agent/sched.c:683-685 | a task passes the test if and only if its interval has really passed or the macro rounded up to it; in the second case, and only then, it is early, by less than a millisecond |
| Clock.EarlyByRounding | agent/sched.c:615-617 | the sleep of at least the interval that the comment grants does fail |
| Scheduler.SchCtx.constructor | agent/sched.c:958-966 | two empty lists, not stopped |
| Scheduler.SchCtx.AddTask | agent/sched.c:631-656 | the task is stamped, and goes to the back of `jobs` exactly if the context is not stopped; otherwise -1 and nothing is linked |
| Scheduler.SchCtx.Offer | agent/core.c:180-191 | a task allocated and offered: queued, or refused, and then freed only by callers that see to it |
| Scheduler.SchCtx.Pop | agent/sched.c:758-773 | the first task leaves `jobs`, or there is none |
| Scheduler.SchCtx.Park | agent/sched.c:787-792 | the task goes to the front of `todo` |
| Scheduler.SchCtx.Settle | agent/sched.c:785-821 | the whole new state for each outcome: parked, parked with a new stamp and one credit less, freed, or everything freed |
| Scheduler.SchCtx.Dump | agent/sched.c:907-924 | both lists end empty and what the two loops free is each task on them, once, `todo` first |
| Scheduler.SchCtx.MoveBack | agent/sched.c:849-858 | `todo` ends empty, its tasks one by one to the front of `jobs` |
| Triggers.TrigCtx.Add | agent/triggers.c:160-175 | the trigger gets the next id and becomes the first |
| Triggers.TrigCtx.Seek | agent/triggers.c:205-219 | the loop that the searches and deletions share stops at the first match |
| Triggers.TrigCtx.Find | agent/triggers.c:306-373 | the first trigger that matches, or null |
| Triggers.TrigCtx.DelFirst | agent/triggers.c:196-290 | the first trigger that matches leaves the table, the others stay in place; 0 exactly if there was one |
| Triggers.TrigCtx.Flush | agent/triggers.c:387-411 | the table ends empty, the id counter stays, and so no id is given out twice |
| TriggerLife.IdUnique | agent/triggers.c:306-332 | a search for the id of any trigger in the table finds that trigger and no other |
| TriggerLife.IdFound | agent/triggers.c:306-332 | a search by id finds the trigger the id was given to, and fails only if that is gone |
| TriggerLife.KeyNewest | agent/triggers.c:347-373 | a search by module, type and instance finds the newest that shares them |
| Conservation.MovedBackIs | agent/sched.c:852-855 | moving `todo` back one head insert at a time puts its reversal in front of `jobs` |
| Conservation.StepConserves | agent/sched.c:747-861 | every atomic step of every thread keeps each task in exactly one place, once |
| Theorems.TaskInOnePlace | agent/sched.c:629-861 | in every reachable state each allocated task is exactly once among `jobs`, `todo`, in hand, freed and lost; nothing is freed twice; between passes `todo` is empty |
| Theorems.LostExactly | agent/net.c:375-379 | of all tasks ever allocated exactly the refused ones that are not Hello tasks are lost; a refused Hello task is freed |
| Theorems.LosesExactly | agent/core.c:180-191 | a step loses a task if and only if it offers one, not a Hello task, after `stop` |
| Theorems.LostForEver | agent/core.c:180-191 | a lost task is never queued, run or freed in any continuation |
| Theorems.SendIsLost | agent/core.c:180-191 | the witness: every message sent through the API after `stop` is lost |
| Books.Drift | agent/sched.c:792-795 | run k + 1 of a periodic task comes more than (k + 1)(elapse - 1) ms after its first stamp |
| Books.StepBooks | agent/sched.c:683-722 | every atomic step keeps credits, stamps and recorded runs of all tasks in agreement |
| Theorems.RunsOfTask | agent/sched.c:720-805 | with `resch` = r >= 0 at most r + 1 runs, released for having run on exactly that one and never queued after it; with a negative `resch` never released for having run; every run later than the drift bound |
| Order.PassKeepsOrder | agent/sched.c:852-855 | the end of a pass: `jobs` is the tasks retained, in the order examined, then those added after the queue was found empty; each queued task was examined once, in order, and left only if it had run its last |
| Order.StepOrder | agent/sched.c:758-843 | every atomic step of every thread keeps the account of the pass |
| Theorems.FateIsFinal | agent/task.c:128-145 | a task freed, lost or refused is never live, run or freed again |
| Theorems.NetErrorIsFinal | agent/sched.c:806-826 | no task queued, parked or in hand when a network error is settled is ever performed again |
| Theorems.StopIsFinal | agent/sched.c:640-651 | once `stop` is set no task is added any more, by anyone; once `sched_loop` has ended both queues are empty for good |
| Theorems.StaleTriggerSilent | agent/sched.c:286-309 | once a trigger is deleted or flushed no later step makes a callback for it by a task that looks its trigger up, whatever the interleaving |
| Theorems.StaleCallsExactly | agent/sched.c:286-427 | when a UE report, a UE measurement or a triggered cell measurement is performed and its trigger is gone, there is a callback if and only if it is a UE report, and then that one; the others are consumed silently, and no other step of the thread does anything |
| Theorems.CallsGenuine | agent/sched.c:286-427 | every callback ever made for a UE report, a UE measurement or a triggered cell measurement carries the id of the trigger its task was made for, which is of its kind; its module is right, but for UE reports: theirs is always 0, so it is right if and only if the module of the trigger is 0; the callbacks of all other tasks carry -1 |
| Theorems.DeletesExactly | agent/triggers.c:196-232 | in every reachable state deleting by id takes the trigger of that id and no other |
| Theorems.DeletedForGood | agent/triggers.c:196-232 | after that, whatever happens, the id never comes back to the table, and no callback of a task that looks its trigger up is made for it |
| Theorems.StaleReport | agent/sched.c:416-427 | the witness: a UE report calls back after its trigger was deleted |
| Theorems.TableInOrder | agent/triggers.c:160-175 | in every reachable state ids fall strictly from head to tail, lie between 1 and the last one given out, and each stands for the one trigger it was given to, flushes notwithstanding |
| Theorems.SessionHolds | agent/net.c:60-117 | in every reachable state the live Hello tasks are those added since the last dump, and the numbers sent on a connection are 0, 1, 2, ... modulo 2^32 |
| Theorems.HellosPileUp | agent/net.c:1061-1080 | counterexample to one Hello task per connection: from every reachable state that may connect, reconnecting after the network thread found the connection lost leaves two more Hello tasks alive |
| Theorems.HellosExactly | agent/net.c:62-84 | in every reachable state a new connection adds one live Hello task, and leaves more than one if and only if one was added since the last dump; after `stop` it adds none |
| Theorems.LoweredResets | agent/net.c:201-217 | whoever lowers the status, the numbers of the next connection begin at 0 |
| Theorems.GreetedWhileDown | agent/net.c:1061-1080 | a Hello task is added only while the status is down and before `stop` |
| Session.SendSeq | agent/sched.c:127-146 | a message takes the next number; one that is too long takes none |
| Session.StepHello | agent/net.c:62-84 | every atomic step keeps the count of Hello tasks |
| Runs.RunInv | agent/sched.c:886-939 | all invariants hold in every state of every run |
| Runs.RunEvolves | agent/sched.c:886-939 | over any stretch of any run: records only grow, ends are final, `stop` stays, deleted trigger ids stay deleted |
| Makings.OfferedWell | agent/core.c:180-191 | the tasks offered have the interval, credits and trigger their kind asks for; that `Offered` is what each step offers is `Losses.OfferIs` |
| Losses.OfferIs | agent/net.c:60-84 | each step of the network thread and the API offers the task that its caller of `task_alloc` writes, argument by argument, to the back of the queue, and after `stop` loses it or frees it |
| Makings.TasksWellMade | agent/net.c:445-800 | in every reachable state every task ever made, and the one in hand, is as its kind asks: only Hello tasks and scheduled cell measurements go round, only triggered tasks carry an id, which is positive |
| Makings.OnceOrForEver | agent/sched.c:720-725 | every task of any other kind is performed at most once, and exactly once if it is released for having run; Hello tasks and scheduled cell measurements are never released for having run |
| Makings.SentOnce | agent/core.c:180-191 | over every run a message offered through the API is handed to `net_send` at most once; exactly once if its task was released for having run and the message fits, never if it does not |
| Performing.SendsExactly | agent/sched.c:127-146 | a Hello or a send whose message exists and fits takes the next number and goes out, and ends in a network error if and only if that fails, whatever its credits; else the send is consumed and the Hello goes round; no other step of the thread does anything |
| Performing.TornDownExactly | agent/sched.c:720-839 | a Hello or a send leaves the agent torn down, queues dumped, triggers flushed, wrapper told, not connected, if and only if its message was handed over and failed |
| Performing.OnlySendsFail | agent/sched.c:677-726 | no other task ever ends in a network error |
| Performing.CallsOnce | agent/sched.c:193-600 | eNB setup, handover, RAN setup, RAN slice, UE reports and scheduled cell measurements call back once if the callback is provided, with the trigger id -1 (a UE report its own), and only the scheduled measurement goes round again |
| Performing.UnknownSilent | agent/sched.c:715-725 | a task of unknown type is consumed or goes round without a callback |
| Performing.GoneIsSilent | agent/sched.c:286-398 | a UE measurement or triggered cell measurement whose trigger is gone when it is looked up, or whose callback is not provided, makes no callback and is consumed; other threads interfering |
| Performing.MeasuresExactly | agent/sched.c:286-398 | if the trigger is there it calls back exactly as often as its message asks, once at most for a cell, each time with the id and module of its own trigger, and is then consumed, whatever the others do meanwhile |
| Turns.HistoryFollows | agent/sched.c:886-939 | for every start and whatever the others do there is a history of the scheduler thread, turn by turn |
| Turns.HistoryIsRun | agent/sched.c:886-939 | every stretch of such a history is a run of the machine, so all that holds of runs holds of it |
| Endings.TickShrinks | agent/sched.c:687-717 | in a pass every turn in which the others add nothing leaves less to do, though callbacks may add tasks: callback tasks left, callbacks left, queue length, place in the turn |
| Endings.PassEndsExactly | agent/sched.c:747-861 | a pass ends if and only if the other threads at some time stop adding to the queue during it; callbacks may go on adding any finite number each, and requests that are refused do not count |
| Endings.PassesEndExactly | agent/sched.c:886-907 | the same for all passes of a run |
| Endings.PassNeedNotEnd | agent/sched.c:758-773 | it does happen, though nothing fails: with one task sent through the API before every turn the loop goes on for ever |
| Endings.StopEndsLoop | agent/sched.c:886-939 | once `stop` is up the scheduler thread exits, with no hypothesis on what the others do |
| Passes.PassAmounts | agent/sched.c:806-858 | what a pass leaves, from the queue it started with: `Orderly` without a network error, `ClearsAt` with one |
| Passes.ErrorClears | agent/sched.c:806-839 | four turns after a network error is settled: not connected, sequence number 0, `disconnected` called once if provided; queued are only tasks added after the dump, filed only triggers armed after the flush, whatever the others do, and nothing if they keep still |
| Passes.ExitedEmpty | agent/sched.c:907-931 | after the final drain both queues are empty |
| View.SeenForeign | agent/net.c:983-1020 | what a step of the network thread or the API does to the contexts is what the step of the machine shows |
| Agent.Emage.constructor | agent/core.c:507-600 | the contexts as `em_start` prepares them are the start of the machine |
| Agent.Emage.Other | agent/net.c:983-1020 | each atomic step of the network thread and of the API, done to the lists, the table and the fields |
| Agent.Emage.Refile | agent/sched.c:785-826 | the second critical section in place, for each outcome |
| Agent.Emage.SendMsg | agent/sched.c:127-146 | the sequence number moves and the outcome is answered as in the machine |
| Agent.Emage.LookupTurn | agent/sched.c:286-291 | the search in the table in place finds what the machine finds |
| Agent.Emage.CallAll | agent/sched.c:298-307 | the loop of callbacks, API calls inside them included, is as many turns of the machine, and ends at the settlement |
| Agent.Emage.PerformJob | agent/sched.c:677-726 | the interval test and the dispatch on the type lead to the outcome of the machine |
| Agent.Emage.DrainJobs | agent/sched.c:758-843 | the loop ends, at an empty queue or at a network error, in the state of the machine, if the others at some time stop adding to the queue during the pass |
| Agent.Emage.Consume | agent/sched.c:747-861 | `sched_consume` as a whole, other threads and callbacks interfering: under the same condition, which is exact, it returns, the lists are those of the machine, and what it leaves is `PassDone` |
| Agent.Emage.SchedLoop | agent/sched.c:886-939 | `sched_loop` to its end: if it is ever stopped it returns, whatever the others do, with both lists empty |
| Agent.Emage.ServeLoop | agent/sched.c:886-907 | `sched_loop` for any number of passes of an agent in service |
| Handlers.AddMeasurements | agent/net.c:597-635 | ADD in place, callers of the API interfering: for each id there is memory for, last id first, the steps that file a trigger and add its task, and if only the task fails, the step that takes the trigger back |
| Handlers.RemoveMeasurements | agent/net.c:586-595 | any other operation in place: for each id, last id first, the step that removes the first trigger with its key |
| Reports.Report | agent/net.c:659-765 | the two other triggered requests in place, with every failure of allocation, callers of the API interfering; what they come to is `ReportComesTo` and `RemovalComesTo` |
| Handlers.AddIsRun | agent/net.c:597-635 | ADD with every failure of allocation, callers of the API interfering, is a run of the machine: what the handler leaves in place is what the contexts show at the end of it |
| Handlers.RemoveIsRun | agent/net.c:586-595 | the same for the removals |
| Reports.ReportIsRun | agent/net.c:659-765 | the same for the other triggered requests |
| Handlers.AddComesTo | agent/net.c:597-635 | left alone, ADD puts a trigger in front of the table and a task behind the queue for each id there is memory for, and leaves no trigger without its task |
| Handlers.RemoveComesTo | agent/net.c:586-595 | left alone, any other operation removes, for each id, the first trigger with its key, and changes nothing else |
| Handlers.AddThenRemove | agent/net.c:586-635 | in place, with memory for any number of the ids, and callers of the API sending and stopping at every step: the table ends as it was if and only if the removals undo what was added |
| Handlers.UeMeasureRoundTrip | agent/net.c:586-635 | ADD and then any removals restore the table exactly, older triggers with equal keys included, if and only if each new trigger has its removal, multiplicities counted, and the other removals find nothing in the old table |
| Handlers.RestoresExactly | agent/net.c:586-595 | the same for whatever triggers stand in front of the table: no removal takes an older trigger while a new one has its key |
| Handlers.NewStays | agent/net.c:586-595 | a new trigger stays if there are fewer removals of its key than new triggers with it |
| Handlers.PartUndone | agent/net.c:586-635 | the same ids with the same multiplicities in any order undo an ADD that had memory for the last n, if and only if no older trigger was filed for the others; with memory for all they always do |
| Handlers.TakesOlder | agent/net.c:586-635 | the witness: the removal after an ADD without memory takes the trigger of an earlier request |
| Reports.ReportComesTo | agent/net.c:676-697 | left alone, ADD puts one trigger with the module and type of the request in front of the table and one task with its id behind the queue; without memory for the task it leaves all but the id counter as it was |
| Reports.RemovalComesTo | agent/net.c:687-747 | any other operation takes the first trigger of its module and type from the table, `TR_TYPE_UE_REP` or `TR_TYPE_MAC_REP`, and does nothing else |
| Reports.ReportThenRemove | agent/net.c:659-765 | in place, callers sending and stopping: the request and its removal leave the table as it was, for a UE report, if and only if its trigger was there or no older one had its key; a cell measurement leaves its trigger behind |
| Reports.UeReportRoundTrip | agent/net.c:676-687 | removing by module and type takes the trigger just added |
| Reports.CellMeasureStays | agent/net.c:738-747 | not so for cell measurements: the trigger just added stays in front |
| Reports.CellRemovalIdle | agent/net.c:747-747 | in every reachable state the removal of a cell measurement changes nothing at all |
| Framing.FramesOfFlat | agent/net.c:1082-1154 | whole messages followed by less than one are framed back into exactly those messages |
| Framing.FramesMonotone | agent/net.c:1082-1154 | more bytes never change the messages already framed |
| Receiver.RunSound | agent/net.c:1055-1155 | at every moment of every run the messages processed from each connection are exactly those its bytes fall into, so none mixes two connections, even if another thread gives up the socket or lowers the status, separately, between any two looks |
| Streams.BytesArrive | agent/net.c:320-323 | the bytes `recv` answers on an open socket are those received, up to what was asked for |
| Streams.ChunksDoNotMatter | agent/net.c:1082-1154 | if the controller sends a stream on each connection and `recv` brings it piece by piece, however cut and given up whenever, then at every moment of every history the agent has received a part of each stream from its beginning, and processed the first of its messages; all of them once all bytes have come |
| NetLoop.NetCtx.NextSeq | agent/net.c:104-117 | the number before, and one more modulo 2^32 |
| NetLoop.NetCtx.NotConnected | agent/net.c:201-217 | the socket is given up, the status is down, the next number is 0 |
| NetLoop.NetCtx.Observe | agent/net.c:201-217 | the same by another thread, the socket and the status separately, and the request to stop |
| NetLoop.NetCtx.ConnectToController | agent/net.c:238-303 | a socket is made only if there is none; success is the receiver's, and there is none if `stop` came up meanwhile |
| NetLoop.NetCtx.Receive | agent/net.c:320-323 | the bytes of `recv` themselves, at most the size asked for, follow what the buffer holds, which stays |
| NetLoop.NetCtx.Store | agent/net.c:320-323 | the same, byte by byte |
| NetLoop.NetCtx.Collect | agent/net.c:1085-1107 | an inner loop fills the buffer to its target, or loses the connection, or stops, as the receiver does, `errno` being what the last failing call left |
| NetLoop.NetCtx.OneMessage | agent/net.c:1082-1154 | a header, the message it announces and its processing are steps of the receiver |
| NetLoop.NetCtx.Loop | agent/net.c:1055-1165 | `net_loop` over its buffer and fields is the receiver, for any number of moments, so `RunSound`, `ChunksDoNotMatter` and all that is proved of histories speak about it; and it has returned if `stop` was up three looks before the last |
| Stalls.NetHistoryPlays | agent/net.c:1055-1165 | for every start and whatever the world does there is a history of the network thread, look by look |
| Stalls.StopEndsNet | agent/net.c:1061-1165 | once `stop` is up the network thread ends within three looks at the world, whatever the others do |
| Stalls.NoticedExactly | agent/net.c:1090-1102 | a connection that the controller has closed, and nobody else gives up, is given up, the status lowered, if and only if `errno` does not read `EAGAIN` when the thread waits |
| Stalls.ClosedNoticed | agent/net.c:1090-1102 | a socket that another thread gives up is noticed within two looks |
| Stalls.JoinsExactly | agent/net.c:1061-1080 | what the head of the loop comes to: collecting, ending, a new socket, a connection made, each if and only if |
| Stalls.StaysUp | agent/net.c:1055-1155 | a connection made and greeted stays up on its socket while nobody tears it down and the controller keeps it open: whatever messages come, the thread never connects again |
| Stalls.WaitsOn | agent/net.c:1093-1097 | while `errno` reads `EAGAIN` the end of the stream passes for a lack of bytes: the thread waits on for ever, with the same socket and the same bytes |
| Stalls.ClosedWhenIdle | agent/net.c:1093-1097 | the witness: one `EAGAIN` on an open connection, the usual idle case, is enough for its end never to be noticed |
| Stalls.StrandedExactly | agent/net.c:238-303 | with the status down and the socket still there, and nobody giving that up, the thread leaves the head of its loop if and only if `connect` succeeds on the old socket |
| Stalls.GetsStranded | agent/net.c:201-217 | the witness: the status of a connection that has come up is lowered by another thread, and its socket stays |

## Left out

- What `errno` reads after a call that fails while a message is processed or while the thread sleeps. `recv`, `connect`
  and the calls on a new socket are those the model lets write it.
- Sockets, name resolution, socket options, `connect` retries and sleeping: input and output. What is kept of a socket
  is its identity and what its calls answer.
- A `socket()` that answers 0: `net_not_connected` would not close it. The model numbers sockets from 1.
- The parser library: a message is its bytes, its announced length, and what its handler takes from it.
- Messages announced longer than `EM_BUF_SIZE`: `Framing.Fits` excludes them where the buffer is filled in place.
- NetLoop.NetCtx.NotConnected: when the network thread calls it, it is one step. Its two assignments that matter here
  write what another thread in the same function would write. Another thread's call is two separate accesses for the
  network loop (`Receiver.Moment`), but one for the scheduler's state machine.
- Agent.Emage.SendMsg: taking the number and sending are one step with respect to `net_not_connected`.
- Theorems.SessionHolds: speaks of numbers taken, in the order taken; that the message carrying a number reaches the
  wire in that order is up to `send`.
- Triggers.TrigCtx.Add: requires that the counter is below the largest `int`; in C the increment beyond it is
  undefined. The machine takes no such step.
- Agent.Emage.Other: takes the step a message leads to as given; the dispatch of `net_process_message` on the message
  type is not modelled.
- Agent.Emage.LookupTurn: the trigger found is read at once. In the code the pointer outlives the lock, so a trigger that
  is freed meanwhile may still be read; that window is not modelled.
- Handlers.AddMeasurements: in place only callers of the API take turns between a trigger and its task, since the code
  that runs the scheduler thread's turns is the other method. As steps of the machine, where every theorem about runs
  holds, all threads may. The same goes for Handlers.RemoveMeasurements and Reports.Report.
- A failed allocation of a Hello, send or scheduled task: the request then has no effect. Failures are modelled where
  they leave something behind, in the triggered requests.
- Message payloads of tasks, logging and memory accounting: nothing depends on them.
- Creating, joining and destroying threads, locks and weak memory: critical sections are atomic and memory is
  sequentially consistent. Reuse of a file descriptor number by the system is not modelled.
- The list of agents and the API beyond one agent (`em_start` failing halfway, `em_has_trigger`, `em_is_connected`):
  simple lookups.
- The `hlist_*` family and the list traversal macros nothing uses.
- The bodies of the remaining `sched_perform_*` functions: what is kept is what they answer and whether they call back.
