# Verification of the repository's stateful cores

Dafny models, with proofs, of the parts of this repository that carry state, protocol or arithmetic:

- the BSD queues of `list/queue.h` as cells on the heap (`Links`, `Tailq`, `TailqRuns`, `SinglyLinked`, `DoublyLinked`) and
  their client `list/l.c` (`TailqClients`);
- the cross-thread call queue of `uv3/uv_callback.c` as code (`UvCallback`) and as a step system over all
  interleavings (`CallQueue`); the request and reply protocol: letters (`Channel`), worker (`Worker`, `Methods`), both
  ends with messages in between (`EndToEnd`), that protocol run on the call queue itself (`Transport`), and what it tells
  its callers (`Outcomes`, `Dialogue`);
- the PostgreSQL pool of `websocket_13/pgsql.c` as code (`PgPool`), on values and over runs (`Pool`, `PoolRuns`,
  `PoolCounts`, `PoolLimits`, `PoolOutcomes`, `PoolFailures`), and its result machine (`PgResults`);
- of the Janus core `janus/src/pjanus.c`: sessions (`Sessions`, `SessionClock`, `SessionFailures`), pending candidates
  (`Trickles`, `TrickleRuns`), RTX payload types (`Rtx`, `RtxCount`), WebSocket frames (`Frame`);
- CRC-32 (`CrcTable`, `Crc`), the random range (`Rand`), SDP editing (`Sdp`, `SdpAttributes`,
  `SdpNumbers`, `SdpText`) and the event emitter (`Emitter`, `EmitterRuns`); `Options` and `Sequences` hold what several
  of these use.

Code that changes things step by step is a class or a method with loops, tied by its contract to a function on values;
the lemmas then speak about that function and about runs of it. `dafny verify dfyconfig.toml` checks everything.

## What the proofs show about the code

Properties that hold are listed in the table. Where the code does not do what its documentation or its surroundings
suggest, the model follows the code, and a lemma says exactly when it does and when it does not:

- `websocket_13/pgsql.c:844` tests for a different name: a teardown decrements another database's counter, so that the
  counters stay right exactly without teardowns (`PoolCounts.StepBalancedIff`, `PoolCounts.SteadyRun`), and a database
  exceeds its limit exactly when the counter it asks is too low (`PoolLimits.ExceedsIff`, `PoolLimits.LimitExceededIff`,
  `PoolFailures.LimitReached`).
- A setup that gets to the connection of a handle that already holds one loses that one (`PoolRuns.SetupKeepsIff`,
  `PoolRuns.AcquireLoses`, `PoolFailures.LossReached`).
- Notifications reach callbacks only (`PgResults.SameStatusesIff`), and every result but row sets is lost uncleared in a
  callback-bound drain (`PgResults.Query.DrainCallback`).
- The RTX search does not end for a type below 96 with everything above it taken (`Rtx.OfferCases`, `Rtx.HangsForever`);
  which lists lead to that can be told by counting (`RtxCount.HangsIff`).
- A session can be destroyed and freed between its creation and its creator's reference (`Sessions.WindowOpen`,
  `SessionFailures.StaleReached`); the watchdog expires a session that has its transport only at the second scan that
  finds it idle, even if it was active in between (`Sessions.ExpiryIff`); ids taken twice orphan a session
  (`Sessions.OrphansIff`, `SessionFailures.OrphanReached`) or remove another one's entry
  (`Sessions.RemovesOtherIff`, `SessionFailures.RemovalReached`).
- The candidates timeout is cut to 32 bits in microseconds (`Trickles.DiscardIff`).
- A frame built with a null pointer and a length takes bytes of the next one (`Frame.NullData`).
- A busy handle is sent with id zero (`Channel.NonZeroIffIdle`); a reply that is neither accepted nor rejected ends the
  request without a call (`Channel.Office.InvokeForDummy`); the id lookup does not know the ids of
  messages in flight (`EndToEnd.ReissueMisdelivers`, `EndToEnd.ReissueReached`).
- `ee_remove_all_listeners` dereferences a null pointer for an unknown event, where `mediasoup/src/globi_ee.h` says nothing
  is done (`Emitter.KnownIff`); registering any handler uses up the one-call handlers of `new_listener`
  (`Emitter.RegisterTouchesIff`).
- SDP lines are matched by the text of a number, so longer numbers match too (`SdpNumbers.OwnLinesOnlyIff`,
  `SdpText.LongerNumberRemoved`), and without a FID group -1 is written as a retransmission SSRC
  (`Sdp.MinusOneIff`, `SdpText.MinusOneWritten`) and the attributes of the first SSRC line are lost
  (`SdpAttributes.NoGroupMunged`).
- `rand32` never returns for more than RAND_MAX + 1 values and divides by zero for the full range (`Rand.ServedIff`,
  `Rand.Rand32`).

## Model

| member | source | states |
|---|---|---|
| `Tailq.TailQueue.Init` | list/queue.h:690-694 | TAILQ_INIT leaves a well-formed empty queue, whatever the links were |
| `Tailq.TailQueue.InsertHead` | list/queue.h:721-732 | the element goes first; both link directions and the tail pointer stay right |
| `Tailq.TailQueue.InsertTail` | list/queue.h:734-742 | the element goes last, through the tail pointer |
| `Tailq.TailQueue.InsertAfter` | list/queue.h:696-709 | the element goes right behind the listed one |
| `Tailq.TailQueue.InsertBefore` | list/queue.h:711-719 | the element goes right before the listed one |
| `Tailq.TailQueue.Remove` | list/queue.h:752-768 | exactly that element leaves; its own next field is not changed, so a loop can still step on |
| `Tailq.TailQueue.Concat` | list/queue.h:635-644 | the second queue is appended and left empty |
| `Tailq.TailQueue.Swap` | list/queue.h:770-785 | the two queues exchange their elements, heads staying where they are |
| `Tailq.TailQueue.Last` | list/queue.h:744-745 | the head read as a link gives the last element, NULL exactly for the empty queue |
| `Tailq.TailQueue.Prev` | list/queue.h:749-750 | an entry read as a head gives the predecessor, NULL exactly at the first element |
| `Tailq.TailQueue.Traverse` | list/queue.h:650-653 | forward traversal visits the elements in order |
| `Tailq.TailQueue.TraverseReverse` | list/queue.h:670-673 | reverse traversal visits exactly the reverse of the forward order |
| `TailqRuns.PerformOne` | list/queue.h:690-768 | each operation on one queue refines the same operation on a sequence |
| `TailqRuns.PerformTwo` | list/queue.h:635-785 | CONCAT and SWAP refine the same operations on two sequences |
| `TailqRuns.QueueSet.Perform` | list/queue.h:635-785 | on any number of queues that share no cell: the operation does to the cells what it does to the sequences, and no other queue changes |
| `TailqRuns.QueueSet.Run` | list/queue.h:635-785 | any legal sequence of operations on any number of queues ends in the state reached by replaying it on sequences, all queues well formed |
| `TailqClients.FillQueue` | list/l.c:17-29 | the characters are appended in order, in new elements |
| `TailqClients.FreeQueue` | list/l.c:31-39 | the queue ends empty |
| `TailqClients.VisitAndDrop` | list/l.c:52-61 | one turn of safe iteration: the next element is saved before the visited one may go |
| `TailqClients.RemoveVowels` | list/l.c:49-62 | deletion under safe iteration is the order-preserving filter of the consonants |
| `TailqClients.PrintQueue` | list/l.c:41-47 | the text is the elements in order |
| `TailqClients.PrintQueueBackwards` | list/l.c:64-67 | the text is the elements in reverse order |
| `TailqClients.ConsonantsPayload` | list/l.c:49-62 | filtering elements is filtering their text |
| `TailqClients.ReversePayload` | list/l.c:64-67 | reversing elements is reversing their text |
| `TailqClients.Program` | list/l.c:69-86 | for every string: forward text, reversed text, text without vowels, and nothing |
| `TailqClients.LettersGo` | list/l.c:49-62 | of each of the ten vowels nothing is left, and of every other character as many as before |
| `TailqClients.OrderStays` | list/l.c:49-62 | what is left of two texts in a row is what is left of each: the order stays |
| `SinglyLinked.SList.InsertHead` | list/queue.h:241-244 | the element goes first |
| `SinglyLinked.SList.InsertAfter` | list/queue.h:236-239 | the element goes right behind the listed one |
| `SinglyLinked.SList.RemoveAfter` | list/queue.h:262-265 | exactly the successor leaves |
| `SinglyLinked.SList.RemoveHead` | list/queue.h:267-269 | exactly the first element leaves |
| `SinglyLinked.SList.Remove` | list/queue.h:248-260 | exactly that element leaves, found by walking |
| `SinglyLinked.SList.Concat` | list/queue.h:190-201 | the second list is appended and left empty; an empty first list takes it over |
| `SinglyLinked.SList.Swap` | list/queue.h:271-275 | the two lists exchange their elements |
| `SinglyLinked.StailQueue.Init` | list/queue.h:340-343 | a well-formed empty queue |
| `SinglyLinked.StailQueue.InsertHead` | list/queue.h:351-355 | the element goes first; the tail pointer follows if the queue was empty |
| `SinglyLinked.StailQueue.InsertTail` | list/queue.h:357-361 | the element goes last |
| `SinglyLinked.StailQueue.InsertAfter` | list/queue.h:345-349 | the element goes right behind the listed one; the tail pointer follows at the end |
| `SinglyLinked.StailQueue.RemoveAfter` | list/queue.h:384-388 | the successor leaves; the tail pointer addresses the last next field |
| `SinglyLinked.StailQueue.Remove` | list/queue.h:370-382 | exactly that element leaves; the tail pointer addresses the last next field |
| `SinglyLinked.StailQueue.Concat` | list/queue.h:308-314 | the second queue is appended and left empty; the tail pointer moves only if it was not empty |
| `SinglyLinked.StailQueue.Swap` | list/queue.h:396-407 | the queues exchange elements; empty ones get their own tail pointer back |
| `SinglyLinked.StailQueue.Last` | list/queue.h:363-366 | the tail pointer taken back to its element is the last one, NULL exactly when empty |
| `DoublyLinked.List.InsertHead` | list/queue.h:529-535 | the element goes first; both directions stay right |
| `DoublyLinked.List.InsertAfter` | list/queue.h:512-519 | the element goes right behind the listed one |
| `DoublyLinked.List.InsertBefore` | list/queue.h:521-527 | the element goes right before the listed one |
| `DoublyLinked.List.Remove` | list/queue.h:544-555 | exactly that element leaves |
| `DoublyLinked.List.Concat` | list/queue.h:467-482 | the second list is appended and left empty |
| `DoublyLinked.List.Swap` | list/queue.h:557-565 | the lists exchange their elements |
| `DoublyLinked.List.Prev` | list/queue.h:539-542 | the predecessor, NULL exactly at the first element |
| `UvCallback.Master.DequeueCall` | uv3/uv_callback.c:33-52 | the walk finds and unlinks the oldest call, NULL exactly when none is queued |
| `UvCallback.Master.FireEnqueue` | uv3/uv_callback.c:130-144 | a call is linked in front of the master's queue: the Fire step of the call system |
| `UvCallback.Master.FireSend` | uv3/uv_callback.c:149-151 | the wakeup is sent: the Send step |
| `UvCallback.Master.AsyncCallback` | uv3/uv_callback.c:56-80 | one undisturbed turn of the loop thread is the composition of its steps |
| `UvCallback.OneCallPerTurn` | uv3/uv_callback.c:56-85 | a turn runs at most one call, the oldest, and leaves the idle handle active exactly when it did |
| `UvCallback.EventLoop.GetMaster` | uv3/uv_callback.c:19-29 | the walk finds a queueing handle if there is one |
| `UvCallback.EventLoop.Init` | mediasoup/soup/UnixStreamSocket.cpp:59-84 | all queueing callbacks of a loop share one master, so both directions share one queue |
| `CallQueue.StepKeeps` | uv3/uv_callback.c:33-151 | every step of a firing thread or the loop thread keeps the invariant that covers queued calls by a wakeup |
| `CallQueue.RunKeeps` | uv3/uv_callback.c:33-151 | so does every interleaving |
| `CallQueue.GlobalFireOrder` | uv3/uv_callback.c:33-151 | in every interleaving the executed calls are a prefix of the fired ones: one global order, at most once, each with its own function |
| `CallQueue.NeverForgotten` | uv3/uv_callback.c:54-151 | between two turns a queued call has a pending wakeup, an active idle handle, or a thread about to send |
| `CallQueue.StepShrinks` | uv3/uv_callback.c:54-85 | every step that is no fire brings the system closer to rest |
| `CallQueue.QuietRunsEnd` | uv3/uv_callback.c:54-85 | once nobody fires, every schedule rests within a known number of steps |
| `CallQueue.AtRestAllDone` | uv3/uv_callback.c:54-85 | it can rest only where every fired call has been executed: no wakeup is lost |
| `CallQueue.ExactlyOnce` | uv3/uv_callback.c:33-151 | after quiet, executed calls are the fired calls, in order |
| `CallQueue.ResultsArrive` | uv3/uv_callback.c:54-128 | each execution of a call that asks for a notification fires one call of the callback asked for with its result, in order of execution, and nothing else fires besides the threads |
| `CallQueue.ResultsExecuted` | uv3/uv_callback.c:54-128 | at rest all these calls have been executed |
| `Channel.Office.IdLookup` | mediasoup/src/channel.c:297-303 | true exactly for a pending id |
| `Channel.Office.ChannelSend` | mediasoup/src/channel.c:108-176 | an idle handle gets the first drawn id that is non-zero and not pending; a failed send calls back and forgets; a busy handle is sent with id zero |
| `Channel.Office.InvokeForDummy` | mediasoup/src/channel.c:196-294 | the letter with the reply's id is settled and removed: accepted, rejected, or silently if the reply says neither |
| `Channel.Office.OnTimeout` | mediasoup/src/channel.c:63-95 | the handle is called back with an error, then the letter with the handle's id is removed |
| `Channel.Office.PendingClose` | mediasoup/src/channel.c:307-325 | all letters go and nobody is called |
| `Channel.SendTidy` | mediasoup/src/channel.c:108-176 | from an idle handle: pending ids stay non-zero, distinct and tied to their handles |
| `Channel.ReceiveTidy` | mediasoup/src/channel.c:196-294 | so they do over every reply |
| `Channel.ExpireTidy` | mediasoup/src/channel.c:63-95 | and a timeout removes its own letter |
| `Channel.NonZeroIffIdle` | mediasoup/src/channel.c:119-149 | the pending ids stay non-zero exactly when the sending handle was idle |
| `Channel.DuplicateIgnored` | mediasoup/src/channel.c:206-280 | a second reply with the same id changes nothing |
| `Worker.AnsweredOnce` | mediasoup/soup/Loop.cpp:151-299 | a request is answered exactly once, with its own id, exactly when it is answerable (settings updates and malformed messages are not) |
| `Worker.Loop.OnChannelRequest` | mediasoup/soup/Loop.cpp:98-299 | the room map and the messages sent are those of the dispatch function, for every method, room id and map |
| `Worker.Loop.UserOnUnixStreamRead` | mediasoup/soup/UnixStreamSocket.cpp:232-285 | a message is parsed, refused or served; the constructor's own rejection of an unknown method is the only answer to it; a JSON root without fields throws |
| `Worker.Loop.Accept` | mediasoup/soup/Request.cpp:117-141 | one accepted reply with the request's id; it must not have been answered |
| `Worker.Loop.Reject` | mediasoup/soup/Request.cpp:155-179 | one rejected reply with the request's id and reason |
| `Worker.Loop.Destroy` | mediasoup/soup/Room.cpp:89-122 | close event, then removal from the map, then the object is gone |
| `Worker.Loop.HandleRequest` | mediasoup/soup/Room.cpp:187-207 | closing destroys the room before the reply; every request to a room is answered |
| `Worker.Loop.Close` | mediasoup/soup/Loop.cpp:54-96 | the map ends empty and each room in it sends exactly one close event, although each calls back into an erase on the map |
| `Worker.ServeConserves` | mediasoup/soup/Loop.cpp:191-241 | one message keeps: rooms present plus rooms created equals rooms present plus close events |
| `Worker.RoomsConserved` | mediasoup/soup/Loop.cpp:191-322 | so does every run of messages, room by room |
| `Worker.EveryRoomClosedOnce` | mediasoup/soup/Loop.cpp:54-96 | a run and a Close: as many close events for a room as creations |
| `Worker.Session` | mediasoup/soup/Loop.cpp:54-299 | the whole life of a worker, as code, sends exactly those, unless a message throws: then everything before it and nothing after |
| `Methods.RoomsByName` | mediasoup/soup/Loop.cpp:98-299 | after any run a room is in the map exactly when the last message about it by name was "worker.createRoom" and not "room.close" |
| `Methods.AnswersByName` | mediasoup/soup/Loop.cpp:98-299 | what is sent for each message of a run, by method name: which are accepted, refused and why, ignored, and when a close event comes |
| `EndToEnd.StepKeeps` | mediasoup/src/channel.c:63-294 | submit, deliver, lose, serve, reply and time out keep the end-to-end invariant |
| `EndToEnd.RunKeeps` | mediasoup/src/channel.c:63-294 | so does every interleaving |
| `EndToEnd.SettledOnce` | mediasoup/src/channel.c:63-294 | in every run pending ids are non-zero and distinct, each request is pending or called back exactly once, never twice, and a reply settles only its own request |
| `EndToEnd.LateReplyIgnored` | mediasoup/src/channel.c:196-280 | a reply whose request is no longer pending changes nothing |
| `EndToEnd.StepForgetsNone` | mediasoup/src/channel.c:63-294 | as long as no reply is lost and every method answers, each pending request or its reply is in flight under the pending id |
| `EndToEnd.StaleReplyHits` | mediasoup/src/channel.c:215-270 | a reply in flight with the id of another pending request can reach that one |
| `EndToEnd.StaleRequestHits` | mediasoup/src/channel.c:215-270 | so can the reply to a request in flight with such an id, once the worker has sent it |
| `EndToEnd.ReissueMisdelivers` | mediasoup/src/channel.c:119-126 | after drawing an id, some order of deliveries settles a wrong request exactly when the draw broke the discipline: the id was that of a reply in flight, or of a request in flight that will be answered |
| `EndToEnd.ReissueReached` | mediasoup/src/channel.c:119-126 | a run from the start in which the code does just that: a request times out while queued, and its id is drawn again |
| `Outcomes.ReplySettles` | mediasoup/src/channel.c:215-270 | an accepted reply ends in RESULT and calls back once as granted, a rejected one in ERROR and once as refused, one that says neither leaves the state and calls nobody |
| `Outcomes.StepTold` | mediasoup/src/channel.c:63-294 | every step keeps that callbacks were told the truth and handles are in the state for it |
| `Outcomes.OutcomesTold` | mediasoup/src/channel.c:63-294 | in every interleaving: a callback caused by the reply to a request is granted if the worker sent accepted for that request and refused if rejected; one without reply is a failed sending exactly if the request was not sent, and else a timeout; a handle waits while pending and is then in RESULT or ERROR by what it was told last |
| `Outcomes.QueueOutcomesTold` | mediasoup/src/channel.c:63-294 | the same on the call queue itself, about every text fired through it |
| `Dialogue.StepServed` | mediasoup/soup/Loop.cpp:98-299 | every step keeps that the requests are served in the order in which they were sent, the rooms are theirs, and every message of the worker is one that its request calls for by name |
| `Dialogue.RunTalks` | mediasoup/soup/Loop.cpp:98-299 | so does every run on the call queue, and the texts of the requests are those submitted |
| `Dialogue.ToldByName` | mediasoup/src/channel.c:63-294 | on the call queue, in every interleaving: a callback caused by a reply is granted exactly if the method of its request, by its name and the requests before it, calls for acceptance |
| `Transport.StepSimulates` | mediasoup/soup/UnixStreamSocket.cpp:59-84 | every step of clients and loop thread on the shared call queue is a step of the end-to-end model or changes nothing in it; a call run is the delivery of the oldest message |
| `Transport.StepKeeps` | uv3/uv_callback.c:33-151 | the joint invariant of queue and protocol is kept by every step |
| `Transport.RunKeeps` | uv3/uv_callback.c:33-151 | and by every interleaving |
| `Transport.SettledOnce` | mediasoup/src/channel.c:63-294 | on the real queue, in every interleaving of clients, firing threads and loop thread: each request is pending or called back exactly once, and a reply settles only its own |
| `Transport.StepShrinks` | uv3/uv_callback.c:33-151 | every step but a submission brings queue, worker and letters closer to rest |
| `Transport.EveryRequestSettled` | mediasoup/src/channel.c:63-294 | once no client submits, every schedule ends within a known number of steps, and where it ends no message is in flight and every request was called back exactly once, whatever was lost or timed out |
| `Transport.SettledAtRest` | mediasoup/src/channel.c:63-294 | when the queue rests, nothing is in flight, and if no reply was lost and every method answers, every request was called back exactly once |
| `PgPool.Globals.AddWaiter` | websocket_13/pgsql.c:570-593 | the handle joins the end of the wait queue and is counted |
| `PgPool.Globals.RemoveWaiter` | websocket_13/pgsql.c:595-612 | the first entry of the handle leaves, and is counted off, if there is one |
| `PgPool.Globals.QueueWakeup` | websocket_13/pgsql.c:614-650 | leading waiters of deleted requests and the first live one leave; the live one is woken |
| `PgPool.Globals.ConnRelease` | websocket_13/pgsql.c:755-812 | the connection returns to the free list without a job, the handle is complete, one waiter is woken |
| `PgPool.Globals.ConnCleanup` | websocket_13/pgsql.c:814-852 | the connection is gone, its job's handle in error, and the first database of ANOTHER name loses one from its counter |
| `PgPool.Globals.CleanupHandle` | websocket_13/pgsql.c:403-426 | a handle leaves the wait queue and gives its connection back |
| `PgPool.Globals.RescanLoop` | websocket_13/pgsql.c:473-509 | the ROLLBACK loop ends, with the first free connection of the database that is in order, or none |
| `PgPool.Globals.RollBackOne` | websocket_13/pgsql.c:489-506 | one ROLLBACK: the connection goes round the free list, and is torn down if it failed |
| `PgPool.Globals.FreshConn` | websocket_13/pgsql.c:511-536 | at the limit an asynchronous handle waits while there is room, others fail; below it a connection is opened |
| `PgPool.Globals.NextConnection` | websocket_13/pgsql.c:465-536 | the two together |
| `PgPool.Globals.SetupHandle` | websocket_13/pgsql.c:112-157 | the checks of flags, binding and name in order, then a connection and the pairing of job and handle |
| `Pool.ReleaseKeeps` | websocket_13/pgsql.c:755-812 | a release keeps the pool invariant |
| `Pool.TeardownKeeps` | websocket_13/pgsql.c:814-852 | a teardown of a free or asynchronous connection keeps it |
| `Pool.CleanupKeeps` | websocket_13/pgsql.c:403-426 | a cleanup keeps it |
| `Pool.TeardownDrift` | websocket_13/pgsql.c:842-849 | a teardown raises by one how far the counter of its own database is above the live connections, and lowers it by one for the first database of another name |
| `Pool.RollBackKeeps` | websocket_13/pgsql.c:489-506 | a round of the rescan loop keeps it |
| `Pool.RollBackProgress` | websocket_13/pgsql.c:473-509 | each round leaves exactly one free connection of the database fewer in an error transaction |
| `PoolRuns.RescanFinds` | websocket_13/pgsql.c:465-536 | a connection handed out is free, of the database and in no error transaction; none is handed out only if none is free |
| `PoolRuns.SetupKeepsIff` | websocket_13/pgsql.c:112-157 | setup keeps the invariant exactly for a handle without a connection, or when its flags are refused, or when the name is not registered and the handle does not become asynchronous |
| `PoolRuns.AcquireLoses` | websocket_13/pgsql.c:141-154 | a handle that holds a connection and gets to pgsql_conn_next loses it, whatever that returns: it stays checked out, held by nobody |
| `PoolRuns.StepKeepsIff` | websocket_13/pgsql.c:112-852 | every other operation keeps the invariant: free list, flags and jobs agree; every checked-out connection is held by one handle, and paired with it by the job if that is asynchronous; the wait counter is the length of the queue |
| `PoolCounts.PoolInvariant` | websocket_13/pgsql.c:112-852 | so does every run; and no counter exceeds its limit |
| `PoolCounts.SteadyRun` | websocket_13/pgsql.c:112-852 | in every run without failing connections, ROLLBACKs and connection attempts, each counter is the number of live connections, which never exceed the limit |
| `PoolCounts.StepDrift` | websocket_13/pgsql.c:465-852 | for every step: how far a counter is above the live connections grows by the connections of the database the step tears down, and falls by the teardowns that hit it instead |
| `PoolCounts.StepBalancedIff` | websocket_13/pgsql.c:842-849 | when all counters are right, they still are after a step exactly when it tears down no connection: no failing ROLLBACK before the first good connection, no failed attempt, no lost connection |
| `PoolCounts.RescanServes` | websocket_13/pgsql.c:473-509 | the rescan loop hands out a connection exactly when a free one of the database is good or has a ROLLBACK that works |
| `PoolCounts.RescanCounts` | websocket_13/pgsql.c:473-509 | it tears down exactly the connections whose ROLLBACK fails before that |
| `PoolCounts.WakesInOrder` | websocket_13/pgsql.c:614-650 | live waiters wake in queue order, one a wakeup |
| `PoolLimits.StepLive` | websocket_13/pgsql.c:465-852 | for every step and database: the live connections are one more if the step opens one, fewer by those of the database the step tears down, and otherwise as many as before |
| `PoolLimits.ExceedsIff` | websocket_13/pgsql.c:511-530 | a step takes a database over its limit exactly when it is a setup that finds nothing to use, is below the limit by the counter, loses none and connects, with as many live connections as the limit: the counter must have been below them |
| `PoolLimits.LimitExceededIff` | websocket_13/pgsql.c:842-849 | from right counters and a database at its limit, losing a connection lets a setup go over the limit exactly when that database is the first of another name than the lost connection |
| `PoolLimits.OneDatabase` | websocket_13/pgsql.c:842-849 | in every run with a single database, whatever is torn down, the live connections never exceed the limit |
| `PoolOutcomes.RescanChooses` | websocket_13/pgsql.c:473-509 | the connection found is the first free one of the database in no error transaction, or else the first whose ROLLBACK works |
| `PoolOutcomes.RescanQueue` | websocket_13/pgsql.c:489-506 | the loop takes waiters from the front of the queue only, and none if no free connection of the database is in an error transaction |
| `PoolOutcomes.RoundWakes` | websocket_13/pgsql.c:489-506 | each round of the loop wakes one waiter: the first live one leaves the queue, with the deleted ones before it |
| `PoolOutcomes.SetupFails` | websocket_13/pgsql.c:112-139 | a setup with excluding flags, nothing bound or an unknown name sets the error state and touches nothing else, but the flags in the last case |
| `PoolOutcomes.SetupGets` | websocket_13/pgsql.c:141-157 | every other setup: the connection chosen, if there is one; below the limit a new one or an error; at the limit no connection, the handle last in the wait queue with its state unchanged exactly if it is asynchronous and the queue has room, and otherwise in error with the queue unchanged |
| `PoolOutcomes.ReleaseGives` | websocket_13/pgsql.c:755-812 | the connection goes to the end of the free list, free and without a job; the handle holds nothing and is complete; one waiter wakes; nothing else of connections and handles changes |
| `PoolOutcomes.CleanupTakes` | websocket_13/pgsql.c:403-426 | exactly the first queue entry of the handle goes |
| `PoolOutcomes.TeardownTakes` | websocket_13/pgsql.c:814-852 | exactly the connection goes; the handle of its job loses it and is in error; other handles and the wait queue stay |
| `PoolFailures.LimitReached` | websocket_13/pgsql.c:842-849 | a run from the empty pool with two live connections of a database limited to one |
| `PoolFailures.LossReached` | websocket_13/pgsql.c:141-154 | a run from the empty pool with a connection that is checked out and held by nobody |
| `PgResults.Query.HandleCallback` | websocket_13/pgsql.c:313-358 | a turn of a callback-bound handle calls it with the notices, one status per deliverable result, and DONE |
| `PgResults.Query.HandleRequest` | websocket_13/pgsql.c:313-358 | a turn of a request-bound handle stops at the first deliverable result, sleeping exactly on WAIT |
| `PgResults.Query.DrainCallback` | websocket_13/pgsql.c:899-959 | the loop delivers every result in one go, clears the row sets and loses the rest |
| `PgResults.Query.DrainRequest` | websocket_13/pgsql.c:899-959 | the loop skips undeliverable results, losing each, and returns with the first deliverable one held |
| `PgResults.Query.ContinueRequest` | websocket_13/pgsql.c:360-401 | continue clears the result, and then does nothing, releases, handles again, or is fatal, by state |
| `PgResults.Query.Schedule` | websocket_13/pgsql.c:548-568 | the handle waits; the request sleeps or the callback sees WAIT |
| `PgResults.Query.RunCallback` | websocket_13/pgsql.c:313-358 | the statuses a callback sees over any run of turns |
| `PgResults.Query.RunRequest` | websocket_13/pgsql.c:313-401 | the statuses a request sees over any run of turns, continuing after each |
| `PgResults.ContinuingCallback` | websocket_13/pgsql.c:313-401 | a callback that continues on DONE sees WAIT for busy turns, notices, one status per deliverable result, DONE, COMPLETE, and nothing after |
| `PgResults.RequestSees` | websocket_13/pgsql.c:313-401 | over any turns a request sees WAIT where the server is busy, ERROR where the input cannot be read, and else the deliverable results in order and DONE, which it reaches exactly with one ready turn more than results |
| `PgResults.SameStatusesIff` | websocket_13/pgsql.c:889-965 | the two ways agree exactly when there is no notification |
| `PgResults.RowlessAre` | websocket_13/pgsql.c:899-959 | the results lost by a callback-bound drain are all but the row sets |
| `PgResults.BeforeReady` | websocket_13/pgsql.c:313-358 | before that a callback is told WAIT where the server is busy and ERROR where the input cannot be read, and after it nothing, if it continues |
| `PgResults.ReadyTells` | websocket_13/pgsql.c:899-959 | a callback is told, call by call: NOTIFY for each notice; COMMANDOK, RESULT or ERROR for each command, row set or failure in order; DONE; and COMPLETE if it continues |
| `PgResults.RequestTells` | websocket_13/pgsql.c:313-401 | a request is told the same for each such result, one a turn, and then DONE |
| `Sessions.Session.Check` | janus/src/pjanus.c:510-513 | the two-part condition with its compare-and-exchange, as code |
| `Sessions.Session.DestroySession` | janus/src/pjanus.c:736-747 | the owner's reference is dropped by whoever sets the flag first |
| `Sessions.StepKeeps` | janus/src/pjanus.c:496-614 | every step that does not touch a freed session keeps the reference accounts and the table |
| `Sessions.RunsAccount` | janus/src/pjanus.c:496-614 | in every such interleaving: count is the owner's one until destroyed plus one per holder; freed exactly when destroyed and unheld, once; the owner's reference dropped once; the table holds live sessions only |
| `Sessions.StaleIff` | janus/src/pjanus.c:1036-1043 | a step touches a freed session exactly when it is a creator's delayed increase after the session was destroyed and nobody holds it |
| `Sessions.HoldKeepsIff` | janus/src/pjanus.c:1036-1043 | that increase keeps the accounts exactly when the session is not destroyed and unheld |
| `Sessions.WindowOpen` | janus/src/pjanus.c:1036-1043 | the window is open whenever the session waits for that increase: another request can destroy it and finish first |
| `Sessions.DestroyRun` | janus/src/pjanus.c:1188-1207 | a destroy request that holds its session can always run to its end |
| `Sessions.MarksCountLooks` | janus/src/pjanus.c:510-513 | the history counts the scans that found the session due |
| `Sessions.ExpiryIff` | janus/src/pjanus.c:496-552 | a session expires at a scan exactly when the scan finds it due and an earlier scan did too, or when both parts of the condition hold at once: with its transport, never at the first scan that finds it idle |
| `Sessions.OrphanForever` | janus/src/pjanus.c:596-614 | a live session in no table entry, held by nobody, is never freed |
| `Sessions.OrphansIff` | janus/src/pjanus.c:1024-1207 | for every step, a session gets out of reach exactly when a creation or a destroy request of another session takes its entry and nobody refers to it, or when the last request that refers to it finishes after its entry has gone |
| `Sessions.RemovesOtherIff` | janus/src/pjanus.c:1194-1196 | a destroy request removes another session's entry exactly when the id was taken again |
| `SessionClock.ExpiryByClock` | janus/src/pjanus.c:496-552 | in every run, told by the clock and the times of creation, use and earlier looks alone: a look expires a session exactly when it was not used for the session timeout, or for the reclaim timeout with its transport gone, and an earlier look found so too or both hold at once |
| `SessionClock.NoWatchdog` | janus/src/pjanus.c:497-498 | with a session timeout below one second no session ever expires |
| `SessionClock.ActivityCounts` | janus/src/pjanus.c:1105-1106 | a session whose transport never left expires only if neither its creation nor any use lies less than the session timeout before the look |
| `SessionClock.RunAgrees` | janus/src/pjanus.c:496-1106 | the time of last use kept by the session is the clock at its creation or latest use, in every run |
| `SessionFailures.StaleReached` | janus/src/pjanus.c:1036-1043 | a run from the empty table that brings a creator to increase the count of a freed session |
| `SessionFailures.OrphanReached` | janus/src/pjanus.c:1024-1036 | runs in which two requests find the same id unused and a session is left that nobody can reach: at the second creation, or when the first request finishes after it |
| `SessionFailures.RemovalReached` | janus/src/pjanus.c:1194-1196 | a run in which a destroy request removes the entry of another session and leaves that one out of reach |
| `Trickles.IceHandle.TrickleMessage` | janus/src/pjanus.c:1596-1674 | refusals in order, then queueing or direct parsing; the reply for each case |
| `Trickles.IceHandle.HandleAnswer` | janus/src/pjanus.c:900-946 | the flag is cleared and the list drained in order, each candidate by its kind and age |
| `Trickles.RunKeeps` | janus/src/pjanus.c:900-1674 | in every run each accepted message is in exactly one place, once, and the list drains in order of arrival |
| `Trickles.ArriveKeeps` | janus/src/pjanus.c:1596-1674 | an accepted message is handed over on arrival exactly when a stream exists, offer and answer were seen and no offer is processed; it joins the list otherwise, and each message stays in one place |
| `Trickles.DiscardIff` | janus/src/pjanus.c:914-919 | a drain discards exactly what waited longer than the timeout, for timeouts up to 4294 seconds; beyond, younger messages are lost too |
| `Trickles.LimitExactIff` | janus/src/pjanus.c:914 | the 32-bit product is the timeout exactly up to 4294 seconds |
| `Trickles.SameCallsIff` | janus/src/pjanus.c:924-1670 | waiting changes nothing for the parser exactly for an object as candidate or an array as candidates |
| `TrickleRuns.RepliesAre` | janus/src/pjanus.c:1596-1674 | which message gets which reply, by the flags set so far: the parser's error exactly for a single candidate that is parsed at once and fails |
| `TrickleRuns.ParserGetsOwn` | janus/src/pjanus.c:900-1674 | in every run each accepted message waits with its own value and time, or the parser got exactly what it holds: a single candidate as it is, an array item by item, nothing of an unusable or old one |
| `Rtx.Search` | janus/src/pjanus.c:3231-3246 | the search gives the value of the two-pass reference, or -1 where that gives up; no result stands for a loop that does not end |
| `Rtx.AllocateRtx` | janus/src/pjanus.c:3222-3251 | the table is the reference's, type by type; no result stands for a call that does not return |
| `Rtx.PickCases` | janus/src/pjanus.c:3231-3246 | when the search finds, gives up and hangs, exactly |
| `Rtx.HangsForever` | janus/src/pjanus.c:3235-3246 | where the reference hangs, every value the loop ever looks at is taken and none makes it give up |
| `Rtx.SearchOrder` | janus/src/pjanus.c:3231-3246 | what the search gives is the first value the loop looks at that is not taken; it gives up where the loop comes back to the type, and never ends where neither happens |
| `Rtx.CandidateAt` | janus/src/pjanus.c:3231-3240 | the loop looks at the values from the type upwards to 127, and then round and round from 96 to 127 |
| `Rtx.AllocateGood` | janus/src/pjanus.c:3222-3251 | the table is injective, its values are in 1..127 and none is an offered type |
| `Rtx.OfferCases` | janus/src/pjanus.c:3231-3248 | a type is left out exactly when the dynamic range is full, and hangs the call exactly when everything above it is taken |
| `Rtx.EveryTypeServed` | janus/src/pjanus.c:3222-3251 | if the dynamic types offered and one value per type fit the dynamic range, every type gets one |
| `Rtx.DynamicReturns` | janus/src/pjanus.c:3222-3251 | a list of dynamic types never hangs the call |
| `Rtx.FullRangeHangs` | janus/src/pjanus.c:3222-3251 | type 95 with all of 96..127 offered does |
| `RtxCount.HangsIff` | janus/src/pjanus.c:3222-3251 | for a list that offers no type below 96 twice, the call does not return exactly when, counted on the list alone, some type below 96 finds no value below 96 after the types before it have used up the dynamic range |
| `RtxCount.RoomReturns` | janus/src/pjanus.c:3222-3251 | for any list the call returns if above each type below 96 more values are left than types are offered |
| `RtxCount.TurnHangsIff` | janus/src/pjanus.c:3231-3248 | at each turn: the search of that turn does not end exactly when the count says so |
| `RtxCount.LowHangsIff` | janus/src/pjanus.c:3222-3251 | without dynamic types it does not return exactly when for some value more types above it are offered than values above it are left, in whatever order |
| `Frame.FrameBuild` | janus/src/pjanus.c:662-698 | the bytes appended are header and payload by length, none for a null pointer |
| `Frame.NetWrite` | janus/src/pjanus.c:685-691 | network byte order, most significant byte first |
| `Frame.RoundTrip` | janus/src/pjanus.c:662-698 | decoding by section 5.2 of RFC 6455 returns FIN, operation, no mask and the payload exactly for lengths below 2^63, and leaves what follows |
| `Frame.NullData` | janus/src/pjanus.c:695-696 | with a null pointer the frame decodes exactly for length zero, and otherwise takes the bytes of the next frames |
| `Frame.OnlyForm` | janus/src/pjanus.c:668-693 | every unmasked final frame a receiver accepts is byte for byte the one built: minimal length form, no other |
| `Frame.StreamSplits` | janus/src/pjanus.c:662-698 | concatenated frames decode to exactly the messages sent |
| `Frame.StreamUnique` | janus/src/pjanus.c:662-698 | different message sequences give different streams, up to the FIN bit of the operation |
| `CrcTable.EntryIsRemainder` | mediasoup/soup/Crypto.cpp:15-50 | every table entry is the eight-step remainder of its index |
| `Crc.GetCRC32` | mediasoup/soup/Utils.hpp:247-256 | for every byte string the table-driven loop gives the bit-serial CRC-32 of section 8 of RFC 1952 |
| `Crc.KnownChecksums` | mediasoup/soup/Utils.hpp:247-256 | the checksum of no bytes is 0 and that of a zero byte 0xD202EF8D |
| `Crc.UpdateIsSerial` | mediasoup/soup/Utils.hpp:252-253 | one table step is eight bit steps |
| `Crc.RegisterConcat` | mediasoup/soup/Utils.hpp:247-256 | the running register composes over concatenation |
| `Crc.CrcConcat` | mediasoup/soup/Utils.hpp:247-256 | so the checksum goes on from that of the first part |
| `Crc.FourBytes` | mediasoup/soup/Utils.hpp:247-256 | feeding four bytes is adding their word and stepping 32 times |
| `Crc.DetectsBurst` | mediasoup/soup/Utils.hpp:247-256 | any change within four neighbouring bytes changes the checksum |
| `Rand.Rand32` | mediasoup/src/mediasoup.c:167-173 | the first draw below the limit decides; range zero divides by zero |
| `Rand.RandomU32` | mediasoup/src/mediasoup.c:174-178 | eight decimal digits, never zero; it returns exactly when some draw is below the limit |
| `Rand.InRange` | mediasoup/src/mediasoup.c:167-173 | the result lies in the range, which goes round 2^32 when the end is below the begin |
| `Rand.ServedIff` | mediasoup/src/mediasoup.c:167-173 | ranges up to RAND_MAX + 1 accept more than half of all draws, greater ones none |
| `Rand.Unbiased` | mediasoup/src/mediasoup.c:167-173 | every value of the range, also of one that goes round 2^32, has exactly limit / range accepted draws, and every other value none |
| `Sdp.Loop` | janus/assets/janus.js:2933-3063 | either loop, with its splices and index corrections, equals one pass over the lines |
| `Sdp.LookAt` | janus/assets/janus.js:2956-3062 | the body of either loop for one line |
| `Sdp.PutBlock` | janus/assets/janus.js:3069-3119 | the splices insert the block at the place and move nothing else |
| `Sdp.Munge` | janus/assets/janus.js:2929-3118 | the function between the split and the join |
| `Sdp.FilterAndInsert` | janus/assets/janus.js:2925-3123 | with a FID group in the first video section the result is everything before it, a filter of it, the block, and everything from the next m-line on |
| `Sdp.ForeignStay` | janus/assets/janus.js:2958-2990 | lines that are not empty, no ssrc lines and no FID groups all stay, in order, and nothing is added |
| `Sdp.OneGroup` | janus/assets/janus.js:2958-2990 | with one FID group: behind it exactly empty lines and those starting with one of its two numbers go; before it empty lines and those with -1 |
| `Sdp.BlockShape` | janus/assets/janus.js:3073-3119 | 6k + 4 lines for k attributes, ending in SIM and three FID lines |
| `Sdp.ReturnedAsIsIff` | janus/assets/janus.js:3064-3068 | the SDP is returned as it was exactly when no line behind the first video m-line has a FID group or a usable number |
| `Sdp.MinusOneIff` | janus/assets/janus.js:2995-3119 | the first FID line written names -1 exactly when the first loop found no FID group |
| `SdpAttributes.MatchesAre` | janus/assets/janus.js:2933-3005 | kind of an m-line, SSRC number and attribute: each is the text behind the first place in the line where the expression matches, as far as the character class goes, and there is none exactly if it matches nowhere |
| `SdpAttributes.BlockRepeats` | janus/assets/janus.js:3073-3119 | the block by position: the attributes that were found, repeated for the six numbers in turn, then the SIM group and three FID groups |
| `SdpAttributes.GroupFinds` | janus/assets/janus.js:2958-2981 | with one FID group each attribute is that of the last line behind it that has it for the group's SSRC, or else of the last line before it that has it for -1 |
| `SdpAttributes.GroupMunged` | janus/assets/janus.js:2925-3119 | the whole result for a first video section with one FID group, with these attributes |
| `SdpAttributes.NoGroupMunged` | janus/assets/janus.js:2995-3119 | the whole result without a FID group: the number of the first line that has one, and the attributes of the lines behind that line only |
| `SdpNumbers.OwnLinesOnlyIff` | janus/assets/janus.js:2958-2990 | behind its one group a section loses the lines of the two SSRCs of the group, the empty ones, and no others, exactly when no line there is of an SSRC with a longer number that begins with one of the two |
| `SdpNumbers.OthersAndForeign` | janus/assets/janus.js:2979-2986 | the same for any two numbers the lines are compared with |
| `SdpNumbers.FidGroupIs` | janus/assets/janus.js:2958 | the numbers of a line are those of the first FID group that stands in it, and it has none exactly if none does |
| `SdpText.MungeSdp` | janus/assets/janus.js:2925-3123 | the whole function on texts: split, edits, join, and a final line end if there is none |
| `SdpText.ReadsBack` | janus/assets/janus.js:2925-3123 | a text that is not returned as it was splits into exactly the lines of the result, each ended: nothing put into a line breaks it |
| `SdpText.JoinSplit` | janus/assets/janus.js:2928-3119 | joining undoes splitting |
| `SdpText.SplitJoin` | janus/assets/janus.js:2928-3119 | splitting undoes joining for lines without a line end inside |
| `SdpText.LongerNumberRemoved` | janus/assets/janus.js:2979-2986 | an SDP whose line of SSRC 10, which is in no group, is removed along with those of SSRC 1 |
| `SdpText.MinusOneWritten` | janus/assets/janus.js:2995-3117 | an SDP without a FID group gets a FID line with -1 |
| `Emitter.EventEmitter.Find` | mediasoup/src/globi_ee.c:52-59 | the event of that name, NULL exactly when there is none |
| `Emitter.EventEmitter.Emit` | mediasoup/src/globi_ee.c:160-179 | each handler is called once in order of registration, and exactly the lasting ones stay |
| `Emitter.EventEmitter.On` | mediasoup/src/globi_ee.c:73-105 | the handler goes last; then new_listener is emitted, except for new_listener itself |
| `Emitter.EventEmitter.RemoveListener` | mediasoup/src/globi_ee.c:133-145 | the first handler with the callback goes, if there is one |
| `Emitter.EventEmitter.RemoveAllListeners` | mediasoup/src/globi_ee.c:147-158 | all go; it fails exactly when no handler of that name was ever registered |
| `Emitter.EventEmitter.ListenerCount` | mediasoup/src/globi_ee.c:188-192 | the number of handlers, zero for an unknown name |
| `Emitter.RemovesFirst` | mediasoup/src/globi_ee.c:133-145 | removal takes out the first match and nothing else |
| `Emitter.RegisterTouchesIff` | mediasoup/src/globi_ee.c:73-105 | registering leaves another event alone exactly unless it is new_listener with a handler for one call |
| `Emitter.KnownIff` | mediasoup/src/globi_ee.h:126-133 | an event is known exactly when something was registered for it: only then is removing all its listeners safe, whatever the header promises |
| `Emitter.CalledOnce` | mediasoup/src/globi_ee.c:160-179 | in every run a handler registered for one call is called at most once |
| `EmitterRuns.HandlersAre` | mediasoup/src/globi_ee.c:52-179 | in every run the handlers of an event are those whose registration still stands, in order of registration: not used up by a call, not cleared, not removed as the first of their callback |
| `EmitterRuns.EmissionCalls` | mediasoup/src/globi_ee.c:160-179 | an emission calls each of them once, in that order, with the argument and its own data |
| `EmitterRuns.RegistrationCalls` | mediasoup/src/globi_ee.c:73-105 | a registration tells the listeners of new_listener in the same way, unless it is one of theirs |

## Left out

- HTTP handlers, login pages, assets, logging, configuration and demo programs.
- libuv, libpq, libnice, jansson, jsoncpp and kore: libuv clears an async handle's pending flag before its callback runs
  and calls an active idle handle again;
  a ROLLBACK succeeds or fails by an oracle and leaves the transaction out of error when it
  succeeds; a connection attempt succeeds or fails; timers fire at any time; a list iterator steps on before its node is
  removed; asking a JSON value that is neither an object nor null for a field throws.
- Callbacks into application code are taken to exist and not to re-enter the structure being updated, except that a query
  callback may continue on DONE.
- Memory exhaustion, freeing of memory, and a request object that is freed while its letter is pending.
- `uv_callback_fire_sync`, and callbacks of type UV_COALESCE beyond their initialisation.
- The letters of `mediasoup/src/channel.c` are used from two threads without a lock; each of its functions is one step here.
- `mediasoup/soup/Room.cpp:203` reads the room's id after the room was deleted; the model does not read it.
- The database counter's width: `pgsql.h` is not part of this repository, and the counters are unbounded here.
- Synchronous queries and the socket polling of `websocket_13/pgsql.c:653-753`.
- The pool's lists are sequences of ids; the queue macros it is built from are proved in `Tailq` and not used again here.
- The transport pointer of a session: it is always null in this code, so that marking a transport as gone is a free step and
  its immediate destruction of sessions does not occur.
- `del_sess` and `del_han`, which keep the reference their lookup took.
- The watchdog holds the table for a whole scan; the model lets others in between two sessions of a scan, which allows more
  interleavings.
- Trickle messages and the drain are single steps; the parser's verdict is a parameter; what it does is not modelled.
- Unmasking of WebSocket payloads (section 5.3 of RFC 6455): the masking key is decoded, and nothing is built with one.
- `mediasoup/soup/Utils.hpp` besides CRC-32: accessors of addresses and bytes, padding and timestamp comparison, all single
  expressions without state; `mediasoup/soup/Settings.cpp`, which reads options; the rest of `janus/assets/janus.js`, which
  calls the interfaces of the browser.
- Rtx.Search: a search that does not end cannot be run here, so the method tells it beforehand and returns no result; `Rtx.HangsForever` shows that the loop of the code would go on forever there.
- RtxCount.HangsIff: stated for lists that offer no type below 96 twice, because the second turn of such a type frees the value of its first for later ones, and what is free then depends on the order of all turns; any list has the condition at each turn (`Rtx.OfferCases`) and a sufficient one on the list (`RtxCount.RoomReturns`).
- RtxCount.TurnHangsIff: the same.
- RtxCount.LowHangsIff: the same.
- SdpText.ReadsBack: the random numbers are taken as texts; that they hold no line end is asked for.
- Rand.Rand32: the generator is a finite sequence of draws; running out of them stands for a loop that is still drawing.
