# tasque, modelled and proved in Dafny

tasque is a work-queue server that speaks the Beanstalk protocol: clients put jobs into named tubes, other
clients reserve them, and a job that is neither deleted, released nor buried in time goes back. This project
models the server's core and proves what it keeps over every run.

It is built in four layers.

1. **The state machine, as a specification.** `State` holds the jobs, tubes and connections as values, and the
   invariant `Inv`, one concern at a time. `Moves` has the single steps of conn.c, tube.c and job.c; `Queue` is
   process_queue with its loop; `Steps`, `JobCommands`, `Kick`, `Waiting`, `Tubes`, `Conns`, `Cron` and `Timeout` are
   the commands and the timers; `Run` puts them together as events and runs. A wall clock is any function
   that does not run backwards; every call of ustime() takes its next reading.
2. **What it means.** `Meaning` says in plain terms what `Inv` gives after every run. `Order`, `Effects`,
   `Reserving`, `TubeEffects`, `Expiry`, `SmallSteps` and `Bystanders` say what each step does, seen from outside, in
   terms of the fields of jobs, tubes and connections; `Lasting` says what holds on through every step. `Findings`,
   `Rotation` and `Leaks` show where the program falls short.
3. **The containers, in place.** `Objects.Heap` (heap.c), `ItemSets` (set.c), `DLists` (dlist.c), `Hashes` and
   `HashIters` (hash.c) are classes over arrays and linked nodes, with loops and back-pointers as in the source.
4. **The server, in place.** `Machine.Server` holds job, tube and connection objects and real heaps; `Queueing`,
   `Dispatching`, `Commands`, `Handling`, `Linking`, `Leaving` and `Ticking` are conn.c's loops and assignments, each
   proved to do what the specification says. `Serving` handles any event and any run of events.

`Frames`, `Framing` and `Writing` stand beside these: how a connection's bytes are cut into commands and bodies,
however they arrive, and how a reply is sent in pieces.

## Findings

| where | what fails | exactly when |
|---|---|---|
| conn.c:1462 | `delete` of a job that is neither the caller's nor ready unlinks the oldest buried job of the tube, whichever job was named, and then frees the named one. The unlinked job stays in the index, marked buried and in no list; the freed job may still be in the delay heap, or reserved by another client and in the middle of being sent to it. | The delete is safe if and only if `JobCommands.DeleteSafe` holds: the job does not exist, or is reserved by the caller, or is ready, or its tube has no buried job, or it is the oldest buried job itself. `Findings.StepSoundIffSafe` and `Run.StepInv` prove both directions, `Findings.UnsafeDeleteIsReachable` builds a run by one client that gets there, `Findings.DeleteFreesJobBeingSent` is the worst case. |
| conn.c:1215-1224 | A delayed job cannot be deleted: remove_delayed_job tests for a ready job. The protocol text (doc/protocol.txt:246-249) says delayed jobs can be deleted. | `Findings.DeletedAnswer`: safe or not, the answer is DELETED if and only if the job is ready, reserved by the caller, or in a tube with buried jobs. `Findings.DelayedNotDeleted`: a delayed job is therefore never deleted properly; without buried jobs in its tube it is not found, with them the delete is unsafe. `Findings.UndeletableIsReachable` gets there. |
| conn.c:1249 | The number that `kick` reports is too large: kick_buried_job reports success on an empty list, so the loop counts to its bound. | `Kick.KickAnswer`: the number is right if and only if the tube has no buried job or at least as many as were to be kicked. `Findings.OvercountIsReachable` gets to a kick that reports two jobs and lets go one. |
| conn.c:307-315, 1693-1708 | A command that arrives behind another one is not handled when the other one has been answered: conn_reset looks at nothing, and handle_client reads before it scans. It waits, complete, until more bytes arrive. The protocol text (doc/protocol.txt:7-9) promises commands one after the other, in the order received. | `Framing.Input.Reset`: a line is left waiting if and only if the bytes held back at that moment begin with a whole line. `Framing.HandledAll`: at no other time is a complete frame left unhandled between commands. `Framing.LeftWaiting` gets there with one read of two lines. |
| set.c:87-95 | A client that waits may starve. Each waiting set has a cursor that is to go round, but set_take moves it on after the item that was last has been moved into the hole. When the last of three or more items is taken, the next take is from slot 1, and slot 0 is passed over. | `Rotation.RotatesIff`: the cursor goes on to the next item, or back to the first, if and only if the item taken was not the last of three or more. `Rotation.WaitingEnds`: as long as no take finds the cursor beyond the end of the set, whoever waits is taken after a bounded number of takes. `Rotation.Starve` has a set of three, reached from an empty one, in which the other two are taken 2n times, for every n, and the first never. |
| job.c:36-41 | A tube is not always deleted when it is empty and no client refers to it, as doc/protocol.txt:116-118 promises. A job takes a reference of its tube when it is made or copied, and job_free gives none back. | `Leaks.TubeGoesIff`: when a client lets go of a tube that no client uses or watches any more, the tube goes if and only if it has no reference beyond those of its users and watchers. `Leaks.KeptIs`: each put, and each peek that finds a job, adds one of these, and no step takes any away; `Leaks.PutKeepsTube`: so a tube into which a job was ever put is there for good. `Leaks.LeakIsReachable` gets there by put, delete and use. |
| conn.c:1395-1403 | `peek-buried` looks whether the tube has a buried job, and then takes the first job of the caller's own reserved list, if it has one. | `SmallSteps.PeekBuriedRightIff`: it does what doc/protocol.txt:363 says if and only if the tube has no buried job; a job it finds is always one that the caller has reserved. `Findings.WrongPeekIsReachable` gets there. |

## Model

| member | source | states |
|---|---|---|
| `Meaning.EveryRunSound` | conn.c:1282-1679 | After any sequence of events in which every delete is safe, from the start, in any interleaving and with any clock that does not run backwards: every job is in exactly one place and its fields say which, all counters are exact, a job being written is reserved by its writer, waiting sets agree with the WAITING bits, every memo is a least deadline, no tube reference dangles, and no wakeup is lost. |
| `Run.StepInv` | conn.c:1282-1679 | For every event: the invariant holds afterwards if and only if the event is not an unsafe delete. |
| `Findings.StepSoundIffSafe` | conn.c:1450-1477 | The same for the plain meaning: a step from a good state leaves a sound server if and only if it is safe. |
| `Findings.UnsafeDeleteIsReachable` | conn.c:1450-1477 | For every clock there is a run by one client (put, reserve, bury, put with a delay) after which an enabled delete is unsafe. |
| `Findings.UnsafeDeleteUnsound` | conn.c:1191-1202 | An unsafe delete always leaves a job in the index, unchanged and marked buried, that is in no list: the oldest buried job of the tube. |
| `Findings.DeleteFreesJobBeingSent` | conn.c:1462-1476 | If the tube has buried jobs, a delete by another client frees a job while it is being sent. |
| `Findings.DeletedAnswer` | conn.c:1450-1477 | Whatever job is named, safe or not: DELETED is the answer exactly for a job that is ready, the caller's, or beside buried jobs. |
| `Findings.DelayedNotDeleted` | conn.c:1215-1224 | Deleting a delayed job is safe exactly if its tube has no buried jobs, and then it is not found and nothing changes. |
| `Findings.UndeletableIsReachable` | conn.c:1215-1224 | For every clock one client gets, by a put with a delay, to a job it cannot delete. |
| `Findings.WrongPeekIsReachable` | conn.c:1388-1405 | For every clock one client gets to a peek-buried that does not do what it should. |
| `Findings.OvercountIsReachable` | conn.c:1245-1280 | For every clock one client gets to a kick that reports more jobs than it lets go. |
| `Findings.SomeoneIdle` | conn.c:1827-1883 | There are states that satisfy the invariant with a client ready to issue a command. |
| `Findings.SomeoneReading` | conn.c:1351-1352 | ... with a client in the middle of a job body. |
| `Findings.SomeoneWaiting` | conn.c:644-667 | ... with a client that waits for a job. |
| `Meaning.InvSound` | conn.c:842-912 | The invariant implies all that EveryRunSound lists. |
| `Meaning.CountByTube` | conn.c:1142-1153 | Counting jobs tube by tube and adding up is counting them once: each global counter is the sum over the tubes. |
| `Run.InitInv` | srv.c:52-83 | The state after srv_init satisfies the invariant. |
| `Serving.Boot` | srv.c:52-83 | The objects srv_init builds stand for that state. |
| `Serving.Handle` | conn.c:1282-1679 | Whatever the event, other than a delete of a delayed job in a tube with buried jobs: the objects end up standing for the specified next state, and the invariant holds again if and only if the event was safe. |
| `Serving.Serve` | conn.c:1282-1679 | So they do over any whole run in which every delete is safe, and it ends in a sound state. |
| `Queue.DrainMid` | conn.c:842-858 | process_queue ends, keeps the invariant, and leaves no unpaused tube with both a ready job and a waiter; it changes nothing but ready jobs it hands out and connections that waited. |
| `Queue.ProcessQueueMid` | conn.c:842-858 | The same with its own reading of the clock. |
| `Order.DispatchOrder` | conn.c:1120-1140 | One run hands jobs out in the order of their priority numbers, the smallest first, and of equal ones the older job first; each to a connection that waits on its tube, no two to the same one, with its whole time to run. What can go is exactly what is ready in a tube with a waiter that is not paused at that time. A more urgent job is passed over only after every connection that waited for it was given another; nothing is handed out only if nothing can be. No other job changes. |
| `Order.DispatchTurns` | conn.c:842-858 | Of the connections that wait on the job's tube, the one under the cursor gets it, and the cursor moves on by one; in all other tubes the cursor stays. |
| `Reserving.ReserveExact` | conn.c:1433-1449 | While no pause runs out: a client with a deadline within a second and no ready job in any tube it watches is told so; else it gets the ready job with the smallest priority number, of equal ones the oldest, of the unpaused tubes it watches, or waits if there is none. Nobody else gets anything. |
| `Reserving.HasReadyIs` | conn.c:779-788 | conn_has_ready_job finds something exactly if a job is ready in a tube the client watches. |
| `Reserving.ReserveBest` | conn.c:1433-1449 | In general, pauses ending or not: it gets at most one job, and every job on offer to it with a smaller priority number, or the same and a smaller id, went to somebody else; or it waits, and no unpaused tube it watches has a ready job. |
| `Waiting.SoonestIsLeast` | conn.c:669-687 | Memo or scan, conn_soonest_reserved_job finds a reserved job of least deadline, and none only if none is reserved. |
| `Waiting.ReserveInv` | conn.c:1427-1449 | reserve keeps the invariant. |
| `Effects.EnqueueExact` | conn.c:873-895 | enqueue_job puts the job where its delay says, or a waiter of its tube has it at once; the rest is untouched but for process_queue. |
| `Effects.PutExact` | conn.c:1309-1353 | put with its body: a job with an id never used before, at least a second to run, in the tube the client uses, queued and counted in the total; a body that ends badly, or drain mode, leaves no job. |
| `Effects.FinishBodyExact` | conn.c:1155-1189 | The last byte of a body queues the job that was being read, or drops it. |
| `Effects.ReleaseExact` | conn.c:1478-1505 | release queues the caller's own job with its new priority and delay, counts it, and answers NOT_FOUND otherwise without changing anything else. |
| `Effects.BuryExact` | conn.c:1506-1526 | bury puts the caller's own job at the end of its tube's buried list; nothing else moves. |
| `Effects.TouchExact` | conn.c:1538-1549 | touch gives the caller's own job its whole time to run again. |
| `Effects.DeleteExact` | conn.c:1450-1477 | delete answers DELETED exactly when the job is ready, the caller's, or its tube has buried jobs; then the job is gone from the index. If the delete is safe the job is gone from its list too, and no other job or list changes; if not, the oldest buried job of the tube leaves the list in its place. Either way the tube counts one deleted job more, and no waiting set and no pause changes. |
| `JobCommands.DeleteInvIffSafe` | conn.c:1450-1477 | delete keeps the invariant if and only if it is safe. |
| `JobCommands.PutInv` | conn.c:1309-1353 | put keeps the invariant. |
| `JobCommands.FinishBodyInv` | conn.c:1155-1189 | So does the end of a body. |
| `Steps.ReleaseInv` | conn.c:1478-1505 | release keeps the invariant. |
| `Steps.BuryInv` | conn.c:1506-1526 | bury keeps the invariant. |
| `Steps.TouchInv` | conn.c:1538-1549 | touch keeps the invariant, the memo included. |
| `Kick.KickBuriedExact` | conn.c:1245-1266 | kick on a tube with buried jobs lets go exactly the first min(n, length) of them, each counted, and no delayed job moves. |
| `Kick.KickDelayedExact` | conn.c:1226-1272 | Otherwise exactly the min(n, size) least delayed jobs by (deadline, id) are let go, each counted, and the answer is their number. |
| `Kick.KickAnswer` | conn.c:1262-1280 | The number answered is the number kicked if and only if the tube has no buried job or at least n. |
| `Kick.KickInv` | conn.c:1527-1537 | kick keeps the invariant. |
| `TubeEffects.UseExact` | conn.c:1601-1615 | use moves the client to the tube of that name, made if need be; all tubes keep what they hold, and the old one is freed only if nothing refers to it. |
| `TubeEffects.WatchExact` | conn.c:1616-1631 | watch adds the tube of that name once and answers the length of the list. |
| `TubeEffects.IgnoreExact` | conn.c:1632-1648 | ignore removes it, unless it is not watched or the only one watched. |
| `TubeEffects.PauseTubeExact` | conn.c:1652-1674 | pause-tube pauses the tube from now on for the given time, never for none. |
| `TubeEffects.PausedIsNotServed` | conn.c:1125-1130 | While a tube is paused process_queue hands out none of its jobs. |
| `Tubes.UnreferencedIsEmpty` | tube.c:46-57 | A tube nobody refers to has empty ready, delay, buried and waiting lists. |
| `Tubes.DropRefMid` | tube.c:46-57 | Dropping a spare reference keeps the invariant; the tube goes exactly with its last reference, and then nothing refers to it. |
| `Tubes.UseInv` | conn.c:1601-1615 | use keeps the invariant. |
| `Tubes.WatchInv` | conn.c:1616-1631 | watch keeps the invariant. |
| `Tubes.IgnoreInv` | conn.c:1632-1648 | ignore keeps the invariant. |
| `Tubes.PauseTubeInv` | conn.c:1652-1674 | pause-tube keeps the invariant. |
| `Bystanders.FreedIsEmpty` | tube.c:46-57 | When tube_dref frees a tube, nobody and nothing refers to it and its four lists are empty. |
| `Bystanders.FreedTubes` | tube.c:93-96 | Over any step: a tube disappears only when a client uses another, ignores it or closes; then nothing refers to it, it held no job, and nobody waited on it but the one who left. |
| `Bystanders.BystanderUntouched` | conn.c:842-912 | Whatever others and the timers do, a connection that does not wait keeps its state, and it keeps every job it has reserved, unchanged, unless somebody deletes that very job while its tube has buried jobs: then the job is gone. |
| `Bystanders.WritingGoesOn` | conn.c:307-315 | So a job that is being written out stays the same job, reserved by its writer, over every step of anybody else but that one; after that one the writer is left with a job that is gone. |
| `Leaks.KeptIs` | job.c:9-41 | Over every step: the references of a tube beyond its users and watchers grow by one with each put into it and each peek that finds a job of it, and never shrink; conn_timeout may add one for the job that is being sent. A tube that has any stays. |
| `Leaks.TubeGoesIff` | tube.c:46-57 | When a client lets go of a tube that no client then uses or watches, the tube goes if and only if it had no such reference. |
| `Leaks.PutKeepsTube` | job.c:36-41 | After any run that begins with a put, the tube it was put into is still there. |
| `Leaks.LeakIsReachable` | job.c:36-41 | For every clock one client gets to a tube other than the default one that holds no job and that nobody refers to, with a reference that is never given back. |
| `SmallSteps.AcceptExact` | conn.c:732-757 | A new connection is idle, uses and watches the default tube alone, and has reserved nothing; nobody else notices. |
| `SmallSteps.PeekExact` | conn.c:1406-1426 | peek answers FOUND with the id exactly if there is such a job, in whatever state, from a copy that holds the tube, and NOT_FOUND otherwise; no job changes. |
| `SmallSteps.PeekReadyExact` | conn.c:1354-1371 | peek-ready is peek at the ready job of the tube in use with the smallest priority number, the older of two equal ones. |
| `SmallSteps.PeekDelayedExact` | conn.c:1372-1387 | peek-delayed is peek at the delayed job there that is due first. |
| `SmallSteps.PeekBuriedRightIff` | conn.c:1388-1405 | peek-buried is peek at the oldest buried job there if and only if there is none; a job it finds is one the caller has reserved. |
| `SmallSteps.PeeksAreSteps` | conn.c:1354-1405 | Each of these is an event of the runs that the other theorems speak of. |
| `SmallSteps.ReplySentExact` | conn.c:307-315 | A connection whose reply is written is idle and has nothing to send; nothing else changes. |
| `Conns.AcceptInv` | conn.c:1827-1883 | A new connection keeps the invariant. |
| `Conns.CloseInv` | conn.c:790-835 | So does a closing one, although enqueue_reserved_jobs lowers its counters late, after a nested process_queue. |
| `Conns.CloseLeavesNoTrace` | conn.c:790-835 | After conn_free no job has the connection as reserver and no waiting set holds it; every job it had reserved is ready again or with a waiter of its tube, none lost but one whose body was still coming, none doubled; others are as they were or were served. |
| `Conns.ReturnAllExact` | conn.c:897-912 | enqueue_reserved_jobs returns every reserved job, once. |
| `Cron.PromoteExact` | conn.c:1000-1007 | conn_cron's first loop ends; exactly the due jobs leave the delay heaps, in nondecreasing order of deadline over all tubes, and none is due afterwards. |
| `Cron.CronTickExact` | conn.c:993-1015 | After a tick exactly the due jobs were let go, and every tube is open or paused beyond the tick's time. |
| `Lasting.PauseHolds` | conn.c:1009-1014 | Over every step: until a reading of the clock has reached the end of a tube's pause, the pause is as it was, unless it is pause-tube's own step, and none of its jobs becomes reserved by anybody. |
| `Lasting.PauseEnds` | conn.c:1125-1130 | A pause that ends in a step was over by a reading of the clock taken in that step. |
| `Lasting.DrainStays` | main.c:13-15 | Drain mode, once on, stays on over every step, and nothing but the signal turns it on; the default tube stays what it is. |
| `Cron.CronTickInv` | conn.c:993-1015 | A tick keeps the invariant. |
| `Timeout.FewerLate` | conn.c:935-962 | Each round of conn_timeout's loop leaves one late job less, even if the connection is handed the same job at once. |
| `Timeout.ConnTimeoutExact` | conn.c:922-972 | The loop ends with no late job left to the connection. |
| `Timeout.ConnTimeoutInv` | conn.c:922-972 | conn_timeout keeps the invariant. |
| `Expiry.ConnTimeoutMoves` | conn.c:922-972 | Exactly the late jobs are taken back, each counted once in the job and in the total, each ready or with a connection that waited on its tube; nothing else is lost by anybody. |
| `Expiry.WaiterTimeout` | conn.c:922-972 | A client that waits: DEADLINE_SOON, and it waits no longer, exactly if a job it has reserved is within a second of its deadline; else TIMED_OUT if it gave a timeout; else it goes on waiting. In the last two cases no job moves and nobody else is touched. |
| `Expiry.ConnTimeoutCopies` | conn.c:938-945 | A client that does not wait: the job it is being sent is replaced by a copy if and only if its time is over, and nothing else of the connection changes but its reserved jobs and the memo. |
| `Objects.Heap.Insert` | heap.c:85-104 | The heap gains exactly the job, keeps its order and every job's own slot number. |
| `Objects.Heap.Remove` | heap.c:106-122 | Whatever slot k is, the job in it leaves with slot -1, the rest is a heap that knows its slots; a slot beyond the end changes nothing. |
| `Objects.Heap.Drain` | heap.c:106-122 | Removing the root until nothing is left yields all jobs in order: of the ready heap by priority number and then id, of the delay heap by deadline and then id. |
| `Objects.Heap.Root` | heap.c:22-28 | The root has the smallest priority number, in a delay heap the earliest deadline, and of several such jobs the smallest id. |
| `HeapOrder.Climb` | heap.c:30-40 | One climb moves the only wrong edge one level up. |
| `HeapOrder.Descend` | heap.c:42-60 | One descent moves it down, through the smaller child. |
| `HeapOrder.Replaced` | heap.c:106-122 | The last rank in place of another may be wrong only at that slot. |
| `HeapOrder.RootIsLeast` | heap.c:30-60 | In an ordered sequence of distinct ids the root precedes all. |
| `Machine.Server.RootIsTop` | conn.c:1130-1136 | The root of a tube's ready heap is the job of the model there with the smallest priority number, that of its delay heap the one with the earliest deadline, the older of two equal ones. |
| `ItemSets.ItemSet.Append` | set.c:34-45 | The item is added at the end and reported to the callback. |
| `ItemSets.ItemSet.Delete` | set.c:47-59 | The last item moves into the hole, all others keep their slots, the deleted one is reported with its slot; a slot beyond the end changes nothing. |
| `ItemSets.ItemSet.Remove` | set.c:67-75 | The first occurrence goes, if there is one, and is reported with its slot; otherwise nothing is reported. |
| `ItemSets.ItemSet.Take` | set.c:87-95 | The item under the cursor, slot last % used, goes, reported with its slot, the last item moves into its slot, and the cursor is set one further. |
| `Rotation.NextTaken` | set.c:87-95 | The item the next take is from: the one behind, or the first again after the last but one; but after the last of three or more the second. |
| `Rotation.RotatesIff` | set.c:87-95 | The take goes round if and only if it does not take the last of three or more items. |
| `Rotation.WaitingEnds` | set.c:34-95 | Whatever is appended, taken and removed meanwhile, an item that stays is taken after a bounded number of takes, if no take finds the cursor beyond the end of a set of two or more. |
| `Rotation.Starves` | set.c:87-95 | For every n: rounds of two takes and two appends that take the same two items 2n times and the third never. |
| `Rotation.Starve` | set.c:87-95 | The same with the set itself, from an empty one. |
| `ItemSets.ItemSet.Clear` | set.c:61-65 | Deletes slot 0 until nothing is left, with that sequence of callbacks. |
| `ItemSets.ClearReportsAll` | set.c:61-65 | That reports every item exactly as often as it was there. |
| `ItemSets.TakeAllIsEverything` | set.c:87-95 | Taking until nothing is left yields every item once, wherever the cursor starts. |
| `DLists.DList.AddHead` | dlist.c:55-78 | The value becomes the first, the links are sound. |
| `DLists.DList.AddTail` | dlist.c:80-100 | The value becomes the last. |
| `DLists.DList.InsertNode` | dlist.c:102-135 | The value stands right before or after the given node. |
| `DLists.DList.DeleteNode` | dlist.c:137-158 | Exactly that node goes, the others keep their order. |
| `DLists.DList.SearchKey` | dlist.c:258-282 | The first node with the value, or null if there is none. |
| `DLists.DList.RemoveKey` | conn.c:860-865 | Search and delete, as remove_reserved_job does. |
| `Hashes.NextPower` | hash.c:8-20 | The least of 16, 32, 64, ... that covers the size; no doubling leaves 64 bits. |
| `Hashes.Hash.constructor` | hash.c:65-94 | A new table, of up to half the slots an unsigned int can count, is empty, with at least the wanted slots. |
| `Hashes.Hash.Insert` | hash.c:96-134 | The map gains or replaces exactly that key, through a resize when the table is full; while the slots can be doubled there are never more entries than slots. |
| `Hashes.Hash.Get` | hash.c:136-153 | What the map says of the key. |
| `Hashes.Hash.Delete` | hash.c:155-183 | The map loses exactly that key, and the answer says whether it had it. |
| `Hashes.Hash.Resize` | hash.c:232-262 | Twice the slots, or the initial 16 when doubling overflows; every entry filed anew, the map unchanged. |
| `Hashes.Hash.Clear` | hash.c:186-207 | Visiting every entry with the deleting callback, saving next first, empties the table. |
| `HashIters.Iter.Next` | hash.c:304-328 | One entry further; at the end every key has been met exactly once. |
| `HashIters.WalkMeetsAll` | hash.c:304-328 | The chains one after the other hold each key of the table once. |
| `Frames.ScanEolExact` | conn.c:1030-1038 | A line ends at CR LF, if that CR is the first one in the bytes; otherwise there is no line yet. |
| `Frames.CutIsParse` | conn.c:1030-1038 | Frames cut off one by one are the beginning of the one left-to-right parse. |
| `Frames.CutCovers` | conn.c:327-351 | The frames and the rest are together all bytes received. |
| `Frames.ParseGrows` | conn.c:1030-1038 | Bytes that arrive later only append frames. |
| `Framing.Input.FillExtraData` | conn.c:327-351 | Bytes behind the line go to the body or the bucket as far as wanted, the others become the next command; nothing is skipped. |
| `Framing.Input.HandleRead` | conn.c:1681-1769 | Any read of any size keeps: frames handled are a beginning of the parse, pending bytes are exactly the rest. |
| `Framing.Input.FramesOfParse` | conn.c:1693-1769 | The parse of all that was received is the frames handled and then the parse of what is pending; while a body is read or discarded the command buffer is empty. |
| `Framing.ChunkingDoesNotMatter` | conn.c:1693-1769 | Two connections that got the same bytes in different reads have understood them the same way, as far as both have got. |
| `Framing.Input.Reset` | conn.c:307-315 | After a reply a command line is left waiting if and only if the bytes held back begin with a whole line. |
| `Framing.HandledAll` | conn.c:1693-1769 | All complete frames received have been handled exactly if the pending bytes hold none; while a body is read that is so, and between commands it is so unless a line is left waiting. |
| `Framing.LeftWaiting` | conn.c:1693-1708 | Two one-letter lines in one read: the first is answered, the second waits. |
| `Writing.Output.WordWritten` | conn.c:1770-1789 | A partial write of a line advances by exactly what was accepted, and is complete exactly when all is sent. |
| `Writing.Output.JobWritten` | conn.c:1790-1819 | The same for writev over a line and a body. |
| `Writing.Output.Reassembles` | conn.c:1790-1819 | What was sent and what is still offered are together the message, whatever the writes returned. |
| `Machine.Server.StoreJob` | job.c:9-34 | Assigning a job's record in place changes the model there and nowhere else; its heap stays a heap. |
| `Machine.Server.TakeFromHeap` | heap.c:106-122 | heap_remove at the job's own slot takes exactly that job out of the tube's heap. |
| `Machine.Server.AddToHeap` | heap.c:85-104 | heap_insert of a job that is in no heap. |
| `Machine.Server.AddJob` | job.c:9-34 | A new job under the next id. |
| `Machine.Server.RemoveJob` | job.c:36-41 | A job that is in no heap leaves the index. |
| `Machine.Server.AddTube` | tube.c:81-91 | A new tube with two empty heaps at the end of the tube set. |
| `Machine.Server.RemoveTube` | tube.c:93-96 | A tube with empty heaps leaves the tube set. |
| `Queueing.TakeReady` | conn.c:1204-1213 | remove_ready_job, with its counters, in place. |
| `Queueing.TakeReserved` | conn.c:860-871 | remove_reserved_job: found exactly if it is on the caller's list. |
| `Queueing.PopBuried` | conn.c:1191-1202 | remove_buried_job takes the oldest. |
| `Queueing.Insert` | conn.c:873-891 | The first half of enqueue_job, in place. |
| `Queueing.Bury` | conn.c:1142-1153 | bury_job, in place. |
| `Queueing.Reserve` | conn.c:1103-1118 | reserve_job, in place, the memo included. |
| `Dispatching.LeaveWaiting` | conn.c:613-627 | conn_remove_waiting's loop over the watch set. |
| `Dispatching.JoinWaiting` | conn.c:630-642 | conn_enqueue_waiting's loop. |
| `Dispatching.NextEligibleJob` | conn.c:1120-1140 | The scan ends the pauses that are over and finds the job with the smallest priority number, the older of two equal ones, of all open tubes with a waiter, or none if there is none. |
| `Dispatching.ProcessQueue` | conn.c:842-858 | The loop in place does what the specified process_queue does. |
| `Commands.EnqueueJob` | conn.c:873-895 | enqueue_job, in place. |
| `Commands.FindSoonest` | conn.c:669-687 | The scan and the memo, in place. |
| `Commands.Release` | conn.c:1478-1505 | OP_RELEASE, in place. |
| `Commands.Bury` | conn.c:1506-1526 | OP_BURY, in place. |
| `Commands.Touch` | conn.c:1538-1549 | OP_TOUCH, in place. |
| `Commands.Delete` | conn.c:1450-1477 | OP_DELETE, in place, safe or not, unless the job it frees is still in a delay heap. |
| `Commands.Put` | conn.c:1309-1353 | OP_PUT, in place. |
| `Commands.FinishBody` | conn.c:1155-1189 | enqueue_incoming_job, in place. |
| `Handling.KickJobs` | conn.c:1262-1280 | kick_jobs and its loops, in place. |
| `Handling.Reserve` | conn.c:1427-1449 | OP_RESERVE with wait_for_job, in place. |
| `Linking.DropRef` | tube.c:46-57 | tube_dref with tube_free_and_remove, in place. |
| `Linking.FindTube` | tube.c:64-75 | The search over the tube set finds the tube of that name exactly if there is one. |
| `Linking.Use` | conn.c:1601-1615 | OP_USE in the order of the program. |
| `Linking.Watch` | conn.c:1616-1631 | OP_WATCH, in place. |
| `Linking.Ignore` | conn.c:1632-1648 | OP_IGNORE with its search, in place. |
| `Linking.PauseTube` | conn.c:1652-1674 | OP_PAUSE_TUBE, in place. |
| `Linking.Peek` | conn.c:1406-1426 | OP_PEEKJOB sends a private copy that holds the tube. |
| `Linking.PeekRoot` | conn.c:1354-1387 | OP_PEEK_READY and OP_PEEK_DELAYED, in place, on the heap's root. |
| `Leaving.Accept` | conn.c:732-757 | conn_create, in place. |
| `Leaving.ReturnAll` | conn.c:897-912 | enqueue_reserved_jobs' loop, in place. |
| `Leaving.UnwatchAll` | set.c:61-65 | set_clear on the watch set, with the references dropped on the way. |
| `Leaving.Close` | conn.c:790-835 | conn_free, in place. |
| `Ticking.ExpireAll` | conn.c:935-962 | conn_timeout's loop, in place; it ends. |
| `Ticking.ConnTimeout` | conn.c:922-972 | conn_timeout, in place. |
| `Ticking.SoonestDelay` | conn.c:974-990 | The scan over the delay heaps' roots, in place. |
| `Ticking.PromoteAll` | conn.c:1000-1007 | conn_cron's first loop, in place; it ends. |
| `Ticking.CronTick` | conn.c:993-1015 | conn_cron up to the tick events, in place. |

## Left out

- Sockets, event loop, signals, options, privileges: reads and writes appear as the bytes they transfer; read and write errors, end of file and the hang-up event appear only as the event that closes the connection.
- The tick heap of connections and conn_tickat: a timeout may come at any time, and it is not claimed that every deadline gets a tick; the clock readings conn_tickat takes are not counted. Its comparison can tie and its key changes while an entry is in the heap, so the heap's contract does not apply to it.
- Allocation failure: every insertion succeeds, so burying after a failed enqueue does not happen.
- Number parsing and tube-name checks: a command arrives with its numbers and a valid name; framing takes a classification of the line as a parameter.
- Wrap-around of job ids and counters: they are unbounded. Slot counts are not: doubling them wraps as an unsigned int does.
- Hashes.Hash.constructor: a table created with more than 2^31 slots is not modelled; its slot count would no longer fit the unsigned int of hash_resize and hash_foreach. The server never creates one.
- Statistics texts, list-tubes texts and the counters of producers, workers, connections and operations; the creation time of a job: the commands appear as replies sent from a private copy, or as one line.
- peek-buried when the tube has a buried job and the caller has reserved none: the program then reads a list node that is not there, and the model says only that there is no job to send.
- quit, which uses the connection after closing it.
- The bytes of a job's body inside the scheduler: only whether the body ends as it should matters there.
- hash_iter_prev, hash_dup, and hash_foreach with callbacks other than the deleting one.
- In `Machine.Server` the index, the tube set, the watch and waiting sets and the reserved and buried lists are maps and sequences held in fields; hash.c, set.c and dlist.c are proved beside it as classes whose contracts are the same operations. Links between jobs, tubes and connections are ids resolved by maps, and the fields of a record are assigned together.
- Order of some assignments: a job's state is set before the heap insertion instead of after it; when a job's body comes with the command it is queued without passing through in_job; reserved_cnt and the record fields of one move are updated together.
- Machine.Server.StoreJob: job_create and the commands write the fields of a job one by one; here the record is assigned at once.
- Commands.Delete: does not take the delete of a delayed job in a tube with buried jobs, because that leaves a freed job in a heap, which no state of the objects stands for; what it does to the state is `Steps.Delete`, and `Effects.DeleteExact` is about that. `Serving.Handle` leaves out the same event.
- Leaks.KeptIs: for conn_timeout it is an inequality; that it adds a reference exactly when it makes a copy is not stated there. When it does make one is `Expiry.ConnTimeoutCopies`.
- That a connection which waits will be served at some time: that depends on the clients, and where it could fail is `Rotation`.
