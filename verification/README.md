# A model of armature-websocket and its proofs

The crate wires four concurrent pieces together by hand on top of tokio and tungstenite. This project
models them in Dafny and proves what holds over every run. A map operation, a bounded channel, a
stored notification, a compare-and-exchange, a semaphore and a clock are atomic primitives.

- `Messages`, `Streams`: the message types, the two conversions, UTF-8 validity after section 4 of
  RFC 3629, and what a sequence of messages becomes on the wire and when read back.
- `Writers` (class `Sink`): the drain loop that the server's and the client's writer share, as a method and
  as a machine beside those who queue messages for it.
- `Connections` (class `Connection`, class `ConnectionWriter`): `send`, `close`, eviction and the writer as
  whole calls. `ConnectionSteps` interleaves any number of callers, the writer, the read loop and the
  teardown, one lock or channel operation at a time; `TimedConnections` and `LoopTimes` put that beside a
  clock, up to the release of the connection's slot.
- `RoomIndex`, `Broadcasts`, `Rooms` (class `RoomManager`): the three maps updated in place, each call
  tied to a function on values; those functions refine one relation between connections and rooms.
- `RoomSteps` interleaves the calls of the room manager one map operation at a time. About its runs:
  `RoomGhosts` (nobody stays in a room after unregistration), `RoomJoins` (where a join ends up),
  `RoomRemovals` (removals alone), `RoomRaces` (runs in which overlapping calls leave the index wrong),
  `RoomCalls` (each call left alone), `BroadcastSteps` (a broadcast beside all other calls).
- `RoomStreams` follows what one member receives; `LockOrder` shows the locks cannot deadlock.
- `ServerLoop`: the read loop as a script of events, its timing and callbacks. `ConnectionTask`: `handshake` and
  `handle_connection` over a room manager and a connection that callbacks and other tasks use meanwhile;
  `Sessions` says what comes of it. `AcceptLoop`: connection slots; `ServedRooms` puts it beside the interleaved room manager.
- `Clients` (class `Shared`, the two task loops), `ClientSteps`: the client, as whole calls and interleaved.
- `EndToEnd`: server writer, link and client reader together.
- `Runs`: runs of a step machine and induction over them.

For the connection, the client and the room manager a lemma shows that the steps of one call, left
alone, amount to the whole call of the class, so the two models of the same code agree.

`dafny verify dfyconfig.toml` checks everything.

## Where the code and its comments differ

- src/server.rs:361-366 speaks of roughly three intervals and src/server.rs:461-463 of three pings unanswered
  by a Pong. The loop gives up at the fourth tick without a frame (`MissedHeartbeatsMeansFourSilentTicks`):
  three unanswered pings leave it running (`ThreeUnansweredPingsAreNotEnough`), and a peer that sends data
  and never a Pong is never given up on (`PongsAreNotNeeded`).
- That branch can be taken at all exactly if `connection_timeout` is at least three intervals
  (`HeartbeatExitIff`); with the defaults of src/server.rs:76-77, 30 and 60 seconds, it never is.
- src/server.rs:571-575 calls `Closed` the terminal state. It lasts exactly until a `close` or an eviction in
  flight writes its own state (`ClosedUntilWritten`; `ClosedBecomesClosing` is a run): with no send past its
  check, exactly if no `close` is about to do so at the end of the teardown and none begins later
  (`ClosedIffNoClose`). `Open` is never re-entered.
- src/room.rs:178 removes an empty room atomically, yet a join that already holds the room can still miss it
  (`JoinCanMissItsRoom`). It does so exactly if `rooms` no longer maps the id to the room it holds when
  it adds its member (`JoinLandsIff`); and whenever a connection has no call in flight, the rooms it is listed
  for in vain are exactly those its last join of which missed, and those a deletion has still to unlist
  (`ListedIffInOrMissed`). A `delete_room` that overlaps a join of its room can undo even a join that landed
  (`DeletionUndoesALandedJoin`).
- Nothing in src/room.rs says which calls may overlap. `NoGhostMembers` and what is said of joins hold as long as
  ids are registered once and five pairs do not: a join with a leave of the same connection and room, with a registration or an
  unregistration of its connection, or with a deletion of its room; and a registration with an
  unregistration of the same connection. Each of them can go wrong: `LeaveBesideJoinLeavesAGhost`,
  `RegistrationBesideJoinLeavesAGhost`, `RacingCallsLeaveAGhost`, `DeletionLeavesAGhost`,
  `UnregistrationMissesTheRegistration`. All other overlaps are allowed.
- Registering an id again resets its room set (src/room.rs:100); `ReRegisteringIsExactIff` says when
  the index survives that.

## Model

| member | source | states |
|---|---|---|
| Messages.ValidUpToIsLongest | src/message.rs:143-147 | the reported offset is the longest decodable prefix, and all of the payload exactly for valid UTF-8 |
| Messages.ValidIffEncoded | src/message.rs:173-181 | what counts as UTF-8 is exactly what code points, surrogates excluded, encode to |
| Messages.ConversionsInvert | src/message.rs:124-187 | the conversions are partial inverses: sending fails exactly on non-UTF-8 text, what is sent reads back with only a Close payload lost |
| Messages.ConversionsKeepTheKind | src/message.rs:124-187 | what goes out has the opcode of the message and, but for a Close, its bytes; what comes in has the type of its opcode and its bytes; a raw frame comes in as an empty Binary |
| Streams.ReadBackWritten | src/connection.rs:186-208 | writing then reading a sequence gives it cut after the first Close, unsendable text removed, Close payload emptied |
| Streams.CloseIsWrittenLast | src/connection.rs:205-207 | at most one Close frame is written, as the last frame, and exactly if some message was a Close |
| Streams.WrittenMonotone | src/connection.rs:186-208 | more input only extends the wire, and not at all after a Close |
| Streams.UnsendableIsSkipped | src/connection.rs:192-198 | a message that cannot be sent costs nothing but itself, wherever it stands |
| Connections.Connection.constructor | src/connection.rs:51-65 | a new connection is Open with an empty queue, a live receiver and no permit |
| Connections.Connection.Send | src/connection.rs:92-105 | queues iff Open, live and with space; evicts iff Open, live and full; changes nothing otherwise |
| Connections.Connection.Close | src/connection.rs:127-132 | always Closing, and leaves a Close in the queue or a permit |
| Connections.Connection.Evict | src/connection.rs:136-139 | Closing with a stored permit, nothing else changed |
| Connections.Connection.SetState | src/connection.rs:152-154 | only the state changes |
| Connections.CapacityIsExact | src/connection.rs:92-105 | of a burst on a new connection exactly `capacity` messages are queued, in order, and the connection is evicted iff there is one more |
| Writers.Drain | src/connection.rs:186-208 | the drain loop puts exactly `Written` of its input on the wire, or as much as the socket takes, and reads up to the first Close |
| Writers.WireFollows | src/connection.rs:186-208 | beside others who queue, the wire is a prefix of `Written` of everything queued, all of it once the writer is done |
| Connections.ConnectionWriter.Run | src/connection.rs:186-213 | the writer drains its queue and closes the sink unless a write failed |
| ConnectionSteps.OpenIsNeverReentered | src/connection.rs:127-154 | over every interleaved run, once the state has left Open it is never Open again |
| ConnectionSteps.ClosedUntilWritten | src/server.rs:560-576 | from the end of teardown the state stays Closed exactly until some close or eviction in flight writes its state, and is Closing for good after that |
| ConnectionSteps.ClosedIsFinal | src/server.rs:560-576 | with no close or unfinished send in flight at the end of teardown and no close begun later, Closed is final |
| ConnectionSteps.ClosedIffNoClose | src/server.rs:560-576 | with no send past its check at the end of teardown, at any later moment with no call in flight the state is Closed iff no close was about to write its state then and none began since |
| ConnectionSteps.ClosedBecomesClosing | src/server.rs:560-576 | a run in which teardown reaches Closed and a late close makes it Closing |
| ConnectionSteps.FailureIsAbsorbing | src/connection.rs:92-105 | after a send has returned an error, every send that begins later, by anybody, returns an error |
| ConnectionSteps.AcceptedSendsAreAPrefix | src/connection.rs:92-105 | the accepted sends of a sequential sender are a prefix of its sends |
| ConnectionSteps.CloseIsNeverLost | src/connection.rs:125-139 | while the read loop runs and the state has left Open, a caller, a Close, the stopped writer or a permit is going to end it; at most one more tick is taken |
| ConnectionSteps.WireFollowsAccepted | src/connection.rs:186-213 | the wire is always a prefix of `Written(accepted)`, all of it once the writer is done, and the queue stays bounded |
| ConnectionSteps.WriterStopsOnlyAfterClose | src/connection.rs:186-213 | the writer ends only after a Close it has sent, a failed write or an abort |
| ConnectionSteps.EverythingAcceptedIsWritten | src/connection.rs:186-213 | without those faults the writer left to itself writes all of `Written(accepted)`, and has whenever it has nothing to do |
| ConnectionSteps.AcceptedSendIsQueued | src/server.rs:495-535 | a send that succeeds has queued its own message, once: a caller's, the heartbeat's empty Ping, or the Pong with on_ping's answer |
| ConnectionSteps.TeardownSaysGoodbye | src/server.rs:560-576 | when the loop waits for its writer a Close has been queued, or a permit left if none was taken; a queued Close is the last frame written unless a write failed or the writer was aborted |
| ConnectionSteps.EvictionIsNoticedOnce | src/connection.rs:142-144 | noticing an eviction uses up its permit and ends the loop |
| ConnectionSteps.UninterruptedCalls | src/connection.rs:92-132 | the steps of one send or close, left alone, are the whole call |
| RoomIndex.CallRefines | src/room.rs:97-182 | every call keeps the two-way index exact and does to the relation what it should |
| RoomIndex.ManagerRefinesRelation | src/room.rs:97-182 | from any exact index and over every sequence of calls with fresh ids the three maps are one set of pairs |
| RoomIndex.RoomsAreThoseWithMembers | src/room.rs:104-182 | without direct creation a room exists exactly while it has a member |
| RoomIndex.ReRegisteringIsExactIff | src/room.rs:97-101 | registering an id again keeps the index exact iff the id was new or in no room |
| RoomIndex.ReRegisteringBreaksTheIndex | src/room.rs:97-101 | a sequence of calls after which the index is not exact |
| Broadcasts.BroadcastIsExact | src/room.rs:185-241 | visiting each connection once in any order, the returned count is the number of queues that gained the message; exactly the full ones are evicted and nobody else changes |
| Broadcasts.OrderDoesNotMatter | src/room.rs:69-73 | any visiting order gives the same links and the same count |
| Rooms.RoomManager.RegisterConnection | src/room.rs:97-101 | the maps afterwards are `AfterRegister` of the maps before |
| Rooms.RoomManager.UnregisterConnection | src/room.rs:104-115 | the loop over the rooms amounts to `AfterUnregister`, in any order of rooms |
| Rooms.RoomManager.CreateRoom | src/room.rs:123-128 | returns the room on file or files a new empty one |
| Rooms.RoomManager.DeleteRoom | src/room.rs:136-148 | the loop over the members amounts to `AfterDelete`; true iff the room existed |
| Rooms.RoomManager.JoinRoom | src/room.rs:151-166 | `AfterJoin`, or ConnectionNotFound with nothing changed |
| Rooms.RoomManager.LeaveRoom | src/room.rs:169-182 | `AfterLeave`, always Ok |
| Rooms.RoomManager.BroadcastToRoom | src/room.rs:185-205 | count and effect of a broadcast in any visiting order; RoomNotFound changes nothing |
| Rooms.RoomManager.BroadcastToRoomExcept | src/room.rs:208-230 | the same for all members but one |
| Rooms.RoomManager.BroadcastAll | src/room.rs:233-241 | the same for every registered connection |
| RoomStreams.DeadForever | src/connection.rs:92-132 | over any sequence of events a connection that left Open or lost its receiver stays so, and its queue only drains but for at most one Close per `close` on it |
| RoomStreams.BroadcastsReachExactly | src/room.rs:185-241 | a broadcast is a send to each registered connection it is for, and touches nobody else, the one left out included |
| RoomStreams.StreamHasNoGap | src/room.rs:185-230 | between join and leave a member's copies are a prefix of the room's broadcasts, and it misses one only by being dead at the end |
| RoomGhosts.NoGhostMembers | src/room.rs:97-182 | unless overlapping calls clash, once an unregistration has returned the connection is in a room only while another, overlapping unregistration has still to take it out; a connection with no call in flight is listed for every room it is in |
| RoomGhosts.GoneForGood | src/room.rs:104-115 | when an unregistration has returned and none is in flight, the connection is unregistered and in no room from there on |
| RoomGhosts.OneEachHasNoGhosts | src/room.rs:104-115 | with one call at a time per connection and no deletion of a room beside a join of it, an unregistered connection is in no reachable room |
| RoomRemovals.RemovalsAreQuiescentlyConsistent | src/room.rs:104-182 | after any interleaving of leaves, unregistrations and deletions the index is exact again once all have returned |
| RoomJoins.JoinLandsIff | src/room.rs:158-163 | whatever runs between a join's insert and its listing, the pair ends up listed, and a member iff it was one or a join of it found the room on file |
| RoomJoins.LoneJoinLandsIff | src/room.rs:158-163 | with one call at a time per connection, iff it was a member or `rooms` mapped the id to the held room at the join's own insert |
| RoomJoins.MissedIsTheLastWord | src/room.rs:158-182 | a pair counts as missed iff its last insert found the room off file and no leave or unregistration has unlisted the pair since |
| RoomJoins.ListedIffInOrMissed | src/room.rs:97-182 | in every state of every run without clashes, a connection with no call in flight is listed for the rooms it is in and those its last join of which missed, and for no other but one a deletion has still to unlist |
| RoomJoins.ListedIffInOrMissedAtRest | src/room.rs:97-182 | for exactly those, with no deletion of the room in flight |
| RoomRaces.JoinCanMissItsRoom | src/room.rs:158-179 | a run of one join and one leave after which a connection is listed for a room that is gone |
| RoomRaces.DeletionUndoesALandedJoin | src/room.rs:136-163 | a run in which a join lands, a deletion runs before it lists the pair, and the pair stays listed for no room |
| RoomRaces.RacingCallsLeaveAGhost | src/room.rs:104-166 | a run in which a join races its own connection's unregister and leaves the connection in a room for good |
| RoomRaces.LeaveBesideJoinLeavesAGhost | src/room.rs:151-182 | a run of a join and a leave of one pair after which it is in the room, unlisted, and stays there when it is unregistered |
| RoomRaces.RegistrationBesideJoinLeavesAGhost | src/room.rs:97-166 | the same of a registration and a join |
| RoomRaces.DeletionLeavesAGhost | src/room.rs:136-166 | the same of a deletion and a rejoin, whose listing the deletion takes for the old one |
| RoomRaces.UnregistrationMissesTheRegistration | src/room.rs:97-115 | a run in which both have returned and the connection is registered |
| BroadcastSteps.ExactlyOneCopy | src/room.rs:69-230 | beside any other calls, a member throughout a broadcast is visited at exactly one step and receives the message if it was registered and able to throughout; nobody else and nobody twice receives it |
| BroadcastSteps.VisitIsExact | src/room.rs:185-230 | a visit passes over who is left out or not registered, queues for who accepts, evicts who is full, and changes nobody else; the count goes up iff the message was taken |
| BroadcastSteps.BroadcastGoesOn | src/room.rs:69-73 | a broadcast at work can always visit somebody or lock the next shard |
| BroadcastSteps.OthersGoOnElsewhere | src/room.rs:63-73 | joins and leaves in other shards, and calls about other rooms, do not wait for it |
| RoomCalls.UninterruptedCalls | src/room.rs:97-182 | the steps of each call, left alone, are the whole call |
| LockOrder.EveryOperationIsOrdered | src/room.rs:97-261 | every operation of the room manager, its listings and counts included, and send, close and set_state of a connection, takes its locks in rank order and gives all back |
| LockOrder.EveryAccessIsLocked | src/room.rs:97-261 | every operation takes the lock of each map shard and state it touches, alone where it writes |
| LockOrder.NoDeadlock | src/room.rs:69-261 | in whatever order locks are granted, in every reachable state with an operation unfinished some thread can move, and without overtaking a waiting writer |
| ServerLoop.CounterMeaning | src/server.rs:464-523 | at every loop head the counter is the number of pings queued since the last frame, at most 3 |
| ServerLoop.MissedHeartbeatsMeansFourSilentTicks | src/server.rs:489-494 | the loop leaves for missed heartbeats exactly at the fourth tick with no frame since |
| ServerLoop.ExitsNameTheirEvents | src/server.rs:486-553 | each way the loop ends belongs to exactly one kind of event |
| ServerLoop.SinceFrameIsSilent | src/server.rs:511-523 | the events counted are the suffix after the last frame |
| ServerLoop.ThreeUnansweredPingsAreNotEnough | src/server.rs:461-498 | three ticks on schedule, their pings queued and nothing read, leave the loop running; the fourth ends it |
| ServerLoop.PongsAreNotNeeded | src/server.rs:513-541 | any number of pings answered by data frames and never a Pong leave the loop running |
| ServerLoop.HeartbeatExitIff | src/server.rs:486-505 | some punctual run ends by missed heartbeats iff connection_timeout is at least three heartbeat intervals |
| ServerLoop.DeadPeerBound | src/server.rs:367-509 | no event is processed later than last read + min(connection_timeout, 4 intervals); no missed-heartbeat exit before last read + 3 intervals |
| ServerLoop.DeadPeerIsLeft | src/server.rs:486-509 | however a running loop goes on without frames, one of the next 4 events, less the silent ticks so far, ends it, and none up to that is later than that bound |
| ServerLoop.HeartbeatsLeaveTheDeadlineAlone | src/server.rs:471-508 | erasing the ticks of a run gives a run of the loop without heartbeats with the same deadline, callbacks and exit |
| ServerLoop.CallbacksFollowTheProtocol | src/server.rs:507-579 | at any point on_disconnect completes the callbacks to on_connect, traffic, at most one error, on_disconnect; an error ends the loop |
| ServerLoop.ErrorIffReadFailed | src/server.rs:548-552 | on_error is called exactly if a read failed, as the last callback of the loop, and the loop ends |
| ServerLoop.EveryFrameIsHandedOn | src/server.rs:511-548 | the callbacks carry exactly the frames read, each once, in order, converted |
| TimedConnections.TheLoopIsAScript | src/server.rs:464-557 | beside any callers and the writer, the loop's events are a punctual script, live exactly while the loop runs; each tick has a returned send of its own and says whether that was accepted; a running loop has read within min(connection_timeout, 4 intervals) |
| TimedConnections.TheLoopEndsWithinAnInterval | src/server.rs:486-503 | the loop never runs longer than one heartbeat interval after the state has left Open |
| TimedConnections.TheSlotIsGivenBack | src/server.rs:464-582 | a slot is held no longer than min(connection_timeout, 4 intervals) + close_timeout after the last read, and an interval + close_timeout after the state left Open |
| LoopTimes.TheClockIsNeverStuck | src/server.rs:464-582 | in every reachable state a step of the loop, of a call in flight or of the teardown is possible, or time can pass |
| LoopTimes.TheLoopTakesWhatComes | src/server.rs:507-553 | at its branches the loop takes any frame, error or end of stream at any time, and answers a Ping with what on_ping returned |
| LoopTimes.TheWriterGetsItsTime | src/server.rs:562-576 | the writer is aborted no earlier than close_timeout after the loop, and before that the state becomes Closed only once the writer has ended |
| ConnectionTask.Handshake | src/server.rs:372-416 | a connection iff the upgrade completed with policy and authorizer agreeing, under the authorizer's principal; nothing iff refused or timed out; an error otherwise |
| Sessions.TheLoopPingsAndAnswers | src/server.rs:489-538 | a heartbeat sends one empty Ping, and the loop goes on iff it is accepted; a Ping is answered with one Pong carrying on_ping's answer; nothing else is sent |
| Sessions.TheAnswerFollowsItsCallback | src/server.rs:531-536 | the answer is queued behind what on_ping itself has sent |
| Sessions.TheTeardownSaysGoodbye | src/server.rs:560-579 | the teardown queues one Close behind what was queued, or leaves a permit; on_disconnect is called in state Closed |
| Sessions.TheWriterCanTakeTheClose | src/server.rs:560-569 | the Close is there while the teardown waits for the writer |
| ConnectionTask.ReadLoop | src/server.rs:464-557 | the loop stops at the first event that ends it, with the right exit, callbacks, pings, answers and last read, while others use manager and connection between its events |
| ConnectionTask.HandleConnection | src/server.rs:419-587 | nothing happens without a handshake; otherwise the callbacks are on_connect, those of the events, on_disconnect, each with the connection registered, the last in state Closed, on_error iff a read failed; the manager has gone through everybody's calls between registration and unregistration; a Close or a permit is left unless others used the connection since |
| ConnectionTask.NothingRemains | src/server.rs:446-587 | afterwards the index is exact, the connection unregistered and in no room, and everything else as the others' calls alone make it |
| AcceptLoop.SlotsAreConserved | src/server.rs:293-353 | free slots and live tasks add up to max_connections, every finished task gave back one slot, registrations never exceed the limit |
| AcceptLoop.AcceptsWhileBelowTheLimit | src/server.rs:293-353 | in every reachable state a task can be accepted, and served, exactly if fewer than max_connections are live; otherwise a peer is turned away |
| ServedRooms.TheManagerStaysWithinTheLimit | src/server.rs:293-353 | beside the interleaved room manager, registered connections and free slots together never exceed max_connections, and a task that gave back its slot has its connection unregistered |
| ServedRooms.TasksGoOn | src/server.rs:446-582 | a task can always register, move on in its own call, or unregister |
| Clients.Shared.Send | src/client.rs:290-297 | refused once closed, an error once the writer is gone, queued otherwise |
| Clients.Shared.Close | src/client.rs:329-338 | queues a Close only if it was the one to set the flag |
| Clients.Shared.TryReceive | src/client.rs:321-323 | takes the oldest inbound message |
| Clients.WriterTask | src/client.rs:214-248 | writes `Written` of its input as far as the socket takes it, and always closes the socket and sets the flag |
| Clients.ReaderTask | src/client.rs:258-287 | hands on every frame up to the first Close or error, converted, in order, and always sets the flag |
| Clients.TakenIsLongest | src/client.rs:258-287 | what the reader takes in is the longest run of frames with no Close before its last, ended by the results, an error or a Close |
| ClientSteps.InboundIsConserved | src/client.rs:266-287 | delivered, queued and in hand are exactly what was read; the queue is bounded; a Close is last |
| ClientSteps.DrainingFreesTheReader | src/client.rs:95-106 | once the application drains the queue a waiting reader can hand on its message |
| ClientSteps.ReaderStopsOnlyAfterClose | src/client.rs:258-287 | while the client exists the reader ends only after a Close frame or a failed read |
| ClientSteps.CloseProtocol | src/client.rs:224-338 | the flag never goes back, is set once a task ended, and all closes queue at most one Close |
| ClientSteps.NothingIsWrittenAfterClose | src/client.rs:241-248 | the wire is a prefix of `Written(accepted)`, with a Close only at its end |
| ClientSteps.EverythingAcceptedIsWritten | src/client.rs:214-248 | unless a write failed the writer left to itself writes all of `Written(accepted)`, and has whenever it has nothing to do |
| ClientSteps.UninterruptedCalls | src/client.rs:290-338 | the steps of one send or close, left alone, are the whole call |
| EndToEnd.DeliveryIsTransparent | src/client.rs:258-287 | what the application receives is a prefix of `Transmitted(accepted)` on the server, and all of it once writer, link and queue have drained |
| EndToEnd.EverythingArrives | src/client.rs:214-287 | unless a write or read failed or the writer was aborted, nothing is left to happen only once the application has received all of `Transmitted(accepted)` |

## Left out

- TCP, TLS, the HTTP upgrade, frame encoding and size limits: the link is an in-order sequence of raw messages that may stop or fail. The WebSocket library's own automatic Pong and Close replies are not on it.
- Reading a room's members in `delete_room` is one step, and so is a lookup with the change made under its guard. That the other rooms in a shard wait for a broadcast too is not modelled: it only takes runs away.
- The inside of the maps, channels, notification, semaphore and `select!`: each is one atomic step, `select!` a free choice among ready branches.
- ConnectionTask.HandleConnection: what callbacks and other tasks do falls between two steps of the loop, whole calls on the manager and the connection; taken apart they are `RoomSteps` and `ConnectionSteps`. The script lasts until the loop ends.
- ServerLoop.DeadPeerBound: callbacks take no time and a ready branch is taken at once, here and in `TimedConnections`; without that the claim is the one on the order of events, `MissedHeartbeatsMeansFourSilentTicks`.
- RoomGhosts.NoGhostMembers: the overlaps `Clash` names are excluded, each with a run in `RoomRaces` that goes wrong; and nobody mutates a `Room` obtained from `create_room` or `get_room` directly.
- RoomStreams.StreamHasNoGap: each call is atomic, as a broadcast holding its room's lock is with respect to that room.
- AcceptLoop and the interleaved models are step machines on values, because no single thread owns their state.
- The heartbeat interval's catch-up ticks after a stall: ticks fall on their schedule.
- The last sender going away before the writer stops: the server loop keeps its handle until the writer has stopped.
- Origin normalisation, `Principal` attributes, builder setters, config validation, error texts, JSON helpers, logging, redaction and read-only getters: single-branch facts or foreign calls.
- Callback panics, and callers that unregister a server-owned connection by hand.
