# A verified model of the store-and-forward broker

The broker takes frames from named clients, stores every message in SQLite before it sends it,
retries messages that need an acknowledgement, sends replies back to the sender of the request, and
hands over what was stored when a client registers again. This project models that behaviour in
Dafny and proves what it promises. `dafny verify dfyconfig.toml` checks all modules.

## How it is built

* **`Wire`** (src/message.cpp, examples/universal_client.cpp): the binary codec, with the byte
  swaps over little-endian memory images written out.
* **`Database`, `StorageLayer`** (src/storage.cpp): the two tables as a value, each prepared statement
  as a function on it, and the class `Storage`, whose methods perform one locked call each. A writing
  call may throw and then changes nothing. A reading call returns any answer its SQL permits, so ties
  of `ORDER BY created_at` fall either way; if a step of it fails it finds nothing, or only the oldest
  rows of its list, without a word to its caller.
* **`Delivery`** (src/message_handler.cpp, src/router.cpp): the delivery protocol as an interleaving
  machine. A handler in flight is a value that says which storage or session call comes next.
  `Advance` makes that one call. `Choice` says whether it succeeds, what the registry answers and
  which row a lookup picks. A `Broker` has any number of handlers, sweeps and registrations in
  flight; between any two calls of one, any calls of the others may happen, a session may persist
  a queued message, and the clock may move.
* **`Invariants`, `Runs`, `AckRace`, `Replies`, `Owners`**: what holds after every step and over every run of
  that machine, as a rely/guarantee argument: each call guarantees `Guarantee`, and what a handler
  knows between two calls survives any step that guarantees it.
* **`Serial`, `HandOver`**: what one whole handler does when no other interrupts it. `Follows` is a
  run of one handler; sessions of other threads may still persist messages or go offline. `Smooth`
  runs are those where no call fails and no session interferes.
* **`StorageLayer.Storage`, `SessionLayer.Session`, `ServerLayer.Server`, `RouterLayer.Router`,
  `Handlers`**: the objects with their fields and loops. The handlers carry a ghost trace
  (**`Traces`**): each is proved to be a run of the machine, from the tables and the online sessions
  it met to the tables it leaves, that hands to each client exactly the messages its session was
  given; and the send queue has accepted exactly the frames of those that met an online session, in
  order, each with its client's identity (**`Roster`**). The storage counts the calls that failed, so a
  call of that run fails exactly where one failed in the storage; where none fails and no session goes
  offline the run is smooth, and the theorems of `Serial` and `HandOver` speak about the objects.
  **`Refinement`** turns such a handler into steps of the `Broker`, so every theorem of `Runs` and
  `Replies` holds for handlers one after the other too.
* **`Exits`**: what has left a session. Every operation of `Session` keeps its accounts: each message
  that was stored has a row of its own, and each that was sent has an accepted frame of its own.
* **`Pump`, `ServerLayer`** (src/server.cpp): the send queue as an interleaving machine (lock regions
  and atomic accesses are steps) and the class whose processor is a run of it.
* **`Outbox`, `Registry`**: the spilling threshold of a session queue, and the two maps of the registry.

Exceptions are results: `Outcome` is `Done` or `Thrown`, `Result` is `Ok` or `Err`. Clock readings,
timeouts and what the network does are parameters or arbitrary choices.

## What the code does and does not do

Some expected properties are not true of the code as it stands. Each is stated with the exact
condition under which it holds, and with a case where it fails.

* *An acknowledged message goes SENT to DELIVERED.* `AckHandler` asks `NeedsAck` and calls
  `MarkDelivered` in two separate storage calls, and the second has no guard. A retry (or the
  rollback of a failed send) may put the row back to PENDING in between; the row then goes
  PENDING to DELIVERED (`AckRace.AckCanFindPending`). It happens if and only if, between the ACK's own
  probe and its update, such a rollback of the row was made and no call marked the row SENT or
  DELIVERED after it (`AckRace.AckFindsPendingIffRolledBack`). What holds always is in
  `Runs.StatusHistory`: DELIVERED is never left, and the ACK that delivers had found the row SENT.
* *A correlation id keeps its owner.* `FindOriginalSenderByCorrelation` returns the empty string for
  "none", for an empty owner name, and when its lookup fails. A reply gives its id a second owner if
  and only if its two writes succeed, the owner on file is empty or the lookup failed, and the reply
  names another destination (`Owners.SecondOwnerIff`, `Owners.OwnersCanSplit`). Lookup and write are
  separate calls: two replies in flight to one id with nobody on file split it if and only if they
  name different destinations (`Owners.OverlappingRepliesIff`, `Owners.OverlappingRepliesSplit`). The
  server handles one received message at a time, because it arms one wait on its socket and arms it
  again when the handler is done, so there this cannot happen (`Owners.ServerRunsAreDisciplined`).
* *The registry maps are inverse to each other.* An upsert keeps every name reachable through the
  index if and only if no other name uses the new identity (`Registry.UpsertKeepsCompleteIff`,
  `Registry.SharedIdentityHidesAName`).
* *Frames leave in the order of the `SendToClient` calls.* A socket event enters
  `ProcessPendingSends` without looking at the flag, and so does a posted task that has looked at it
  before the event set it; then two processors overlap (`Pump.OverlapBreaksOrder`). A step keeps the
  order if and only if its send does not overtake a different older one (`Pump.OrderStep`); the drain
  of `Stop` does, where all sends are different, if and only if the queue or the batches in flight are
  empty (`Pump.DistinctDrainKeepsOrderIff`).
* *Storage is byte-transparent.* Names are bound as C strings; storing is the identity if and only if
  no name contains a NUL byte (`Database.StorageIsTransparent`, `Database.NulIsLost`).
* *At most 100 messages are queued.* With the persist callback set, an enqueue on at most 100 leaves
  more if and only if there were 100 and saving the first of them throws
  (`SessionLayer.Session.EnqueueMessage`).
* `Session::SendMessage` loses a message that does not fit in a frame if the session is online (and
  takes it offline). No such message reaches it: `Runs.HandedFitsInFrame`.
* A session that has gone offline never comes back, because nothing calls `MarkOnline`; so a session is
  online only while nothing has been queued, and the `FlushQueue` at the end of
  `DeliverOfflineMessages` has nothing to send (`RouterLayer.Router.FlushNothing`).

Where the documentation and the code differ, the model follows the code:
docs/technical-specification.md:62 marks a message without the ACK flag DELIVERED after the socket took
it, while the code does so as soon as `SendMessage` returns, which is when the frame is in the send queue
or the message in the session's queue; docs/technical-specification.md:61 puts an expired message back to
PENDING, while the code sends it again at once, as SENT, if the client is online;
docs/api-documentation.md:197 says that `MarkAckReceived` marks a message as acknowledged, while it only
removes correlations, and only if the ACK came from their owner; docs/api-documentation.md:413 says that
`NeedsAck` looks at the flags, while it also wants the status SENT.

## Model

| member | source | states |
|---|---|---|
| `Wire.Serialize` | src/message.cpp:38-73 | succeeds exactly on messages within the bounds, with their frame; otherwise the error names the first bound that is exceeded |
| `Wire.WriteFrame` | src/message.cpp:53-70 | the pushes with swapped memory images build the header in network byte order and the three parts |
| `Wire.SwapWritesNetworkOrder` | src/message.cpp:15-17 | a byte swap followed by a little-endian copy writes big-endian, for every value and width |
| `Wire.SwapReadsNetworkOrder` | src/message.cpp:19-21 | a little-endian load followed by a byte swap reads big-endian, for all bytes |
| `Wire.Deserialize` | src/message.cpp:75-116 | accepts exactly the byte strings that are the frame of some message, returns that message, and each error describes the bytes |
| `Wire.ReadBack` | src/message.cpp:86-115 | writing what was read from a well-formed frame gives back the frame |
| `Wire.EncodeInjective` | src/message.cpp:53-72 | two messages never share a frame, so parsing a serialized message gives that message |
| `Wire.ExplainedIsNoFrame` | src/message.cpp:76-105 | bytes that one of the parser's checks refuses are not the frame of any message |
| `Wire.ClientSerialize` | examples/universal_client.cpp:62-91 | within the bounds it agrees with the broker; an oversized payload gives bytes that the broker refuses with a size mismatch |
| `Wire.OversizedIsRejected` | examples/universal_client.cpp:82-88 | a payload length truncated to 16 bits never makes a frame, whatever the message |
| `Database.StorageIsTransparent` | src/storage.cpp:241-252 | storing and loading a message gives it back exactly when no name contains NUL, and never leaves the wire bounds |
| `Database.NulIsLost` | src/storage.cpp:244-246 | a destination with a NUL byte comes back shortened; its row cannot be told from one for the shorter name |
| `Database.CStr` | src/storage.cpp:244 | binding with length -1 keeps the longest prefix without NUL |
| `Database.Int64RoundTrip` | src/storage.cpp:243 | the casts between uint64 and the signed column are inverse |
| `StorageLayer.Storage.SaveMessage` | src/storage.cpp:232-261 | a new PENDING row with the next id, or an exception and no change |
| `StorageLayer.Storage.MarkDelivered` | src/storage.cpp:263-277 | the row becomes DELIVERED whatever its status was; nothing else changes |
| `StorageLayer.Storage.MarkSent` | src/storage.cpp:279-295 | only a PENDING row becomes SENT |
| `StorageLayer.Storage.MarkPending` | src/storage.cpp:297-313 | only a SENT row becomes PENDING |
| `StorageLayer.Storage.NeedsAck` | src/storage.cpp:315-330 | true exactly for a SENT row with the flag; false if the lookup fails |
| `StorageLayer.Storage.SaveCorrelation` | src/storage.cpp:332-351 | the conflicting row of the unique index goes and the new one comes; an unknown message id is refused by the foreign key |
| `StorageLayer.Storage.LatestOf` | src/storage.cpp:80-86 | the row picked is one of the latest |
| `StorageLayer.Storage.FindOriginalSenderByCorrelation` | src/storage.cpp:353-376 | the owner on a latest row of the id, or the empty name if there is none or the lookup fails |
| `StorageLayer.Storage.FindMessageIdByCorrelation` | src/storage.cpp:378-394 | the message of a latest row of the id, or 0 if there is none or the lookup fails |
| `StorageLayer.Storage.FindMessageIdByCorrelationAndDestination` | src/storage.cpp:396-415 | the message of a latest row of the id among messages to the given destination, or 0 if there is none or the lookup fails |
| `StorageLayer.Storage.MarkAckReceived` | src/storage.cpp:417-441 | where no step fails, the correlations of the message go exactly if the ACK came from an owner on file; a failing delete leaves them, a failing lookup takes the owner for empty, and neither is reported |
| `StorageLayer.Storage.Fetch` | src/storage.cpp:452-477 | the fetch loop returns every matching row once, oldest first; where a step fails it returns the oldest part |
| `StorageLayer.Storage.LoadExpiredSent` | src/storage.cpp:443-484 | every SENT row older than the timeout, once, oldest first; the oldest part of them where a step fails |
| `StorageLayer.Storage.LoadPendingMessagesOnly` | src/storage.cpp:486-525 | every PENDING row of the destination that is no reply, once, oldest first; the oldest part of them where a step fails |
| `StorageLayer.Storage.LoadPendingRepliesForSenderOnly` | src/storage.cpp:527-575 | every undelivered reply whose correlation id the client owns, once, oldest first; the oldest part of them where a step fails |
| `Invariants.PutCorrelationOk` | src/storage.cpp:74-77 | INSERT OR REPLACE keeps the unique index, the foreign key and every owner |
| `Invariants.DropCorrelationsOk` | src/storage.cpp:431-434 | deleting the correlations of a delivered message loses no owner of an unsettled id |
| `Invariants.MarkDeliveredOk` | src/storage.cpp:62 | the unguarded update keeps all invariants and is a permitted status move |
| `Invariants.MarkPendingOk` | src/storage.cpp:68 | the guarded rollback keeps all invariants and cannot undo DELIVERED |
| `Invariants.TaskStep` | src/message_handler.cpp:49-297 | every call of every handler, sweep or registration keeps the table invariants and the handler's own knowledge, and gives the guarantee |
| `Invariants.TaskStable` | src/router.cpp:322-355 | what a handler knows between two of its calls survives any call of another one |
| `Invariants.HandsBounded` | src/session.cpp:62-64 | no call hands a session a message that does not fit in a frame |
| `Invariants.BrokerStep` | src/storage.cpp:62-78 | every step of the broker keeps every invariant: SENT implies the flag, unique owners, correlations that point at rows with their id |
| `Runs.ReachableOk` | src/storage.cpp:184-211 | all of that holds in every reachable state of every interleaving |
| `Runs.NeedsAckIffSent` | src/storage.cpp:315-330 | in every reachable state `NeedsAck(id)` holds exactly when the row is SENT |
| `Runs.HandedFitsInFrame` | src/session.cpp:62-64 | whatever was ever handed to a session fits in a frame, so `Serialize` does not throw there |
| `Runs.RowsStay` | src/storage.cpp:62-69 | a row never goes, its content and creation time never change, and DELIVERED is absorbing |
| `Runs.WhoDelivers` | src/message_handler.cpp:89-95 | a call makes a row DELIVERED only if the row needs no ACK, is a reply, or is the one the handler's ACK is about |
| `Runs.WhoRollsBack` | src/router.cpp:332 | only a retry or the rollback of a failed send puts a SENT row back to PENDING |
| `Runs.ProbeCameFirst` | src/message_handler.cpp:255-256 | an ACK about to deliver a row has earlier found that row SENT, with its own correlation id |
| `Runs.StatusHistory` | src/router.cpp:322-355 | every step of every run moves a row along PENDING, SENT, DELIVERED as described, under any interleaving of ACKs and retries |
| `Runs.DeliveredOnlyByAck` | src/message_handler.cpp:255-257 | an ack-required message that is DELIVERED was acknowledged by its correlation id after it was saved |
| `Runs.NoAckRequiredMessageIsLost` | src/message_handler.cpp:49-136 | at every moment after it was saved an ack-required message is unchanged, and PENDING and found by its destination's registration, or SENT and found by the sweep once old enough, or acknowledged |
| `AckRace.AckFindsPendingIffRolledBack` | src/message_handler.cpp:255-256 | an ACK moves a row PENDING to DELIVERED if and only if, since its probe, a rollback of the row was made and no call after it marked the row SENT or DELIVERED |
| `AckRace.AckCanFindPending` | src/router.cpp:332-347 | a run in which that happens to an ack-required message |
| `Replies.PendingReplyStaysFindable` | src/message_handler.cpp:138-157 | a reply whose correlation was saved is loaded by its destination's registration until it is DELIVERED, unless another message of that id already is |
| `Owners.OwnersStaySingle` | src/message_handler.cpp:146-157 | with non-empty names, no reuse of another sender's id, lookups that do not fail, and writers past their lookup that agree on the owner, every id has one owner in every reachable state |
| `Owners.ServerRunsAreDisciplined` | src/server.cpp:92-97 | the writers agree in the server as it is, because one received message is handled at a time: one wait is armed (92-97), and again when the handler is done (126-188) |
| `Owners.WriteKeepsSingleIff` | src/storage.cpp:74-77 | writing a correlation keeps one owner per id if and only if its owner has a name and nobody else is on file |
| `Owners.LookupsAreDeterministic` | src/storage.cpp:80-96 | then each of the three LIMIT 1 lookups has one possible answer |
| `Owners.ReplyGoesToOwner` | src/message_handler.cpp:146-153 | then the row saved for a reply that arrived while a correlation was on file has its owner as destination, in every later state |
| `Owners.SecondOwnerIff` | src/message_handler.cpp:146-157 | a reply gives its id a second owner if and only if its writes succeed, the owner on file is empty or the lookup fails, and the reply names another destination |
| `Owners.OwnersCanSplit` | src/storage.cpp:353-376 | an empty owner on file, and a failing lookup of a non-empty one, with which that happens |
| `Owners.OverlappingRepliesIff` | src/message_handler.cpp:146-157 | two replies that both look before they write leave two owners if and only if nobody was on file and they name different destinations |
| `Owners.OverlappingRepliesSplit` | src/message_handler.cpp:146-157 | a run of the machine in which that happens |
| `Serial.FollowsOk` | src/router.cpp:51-57 | every whole handler keeps every invariant, whatever fails in it |
| `Serial.UnknownAck` | src/message_handler.cpp:242-253 | if no correlation has the id, the fallback finds nothing either, and the ACK changes nothing |
| `Serial.AckOutcome` | src/message_handler.cpp:228-297 | a whole ACK changes nothing unless the row behind its id is SENT; then that row is DELIVERED and its sender is told |
| `Serial.AckNotifiesOnce` | src/message_handler.cpp:255-289 | exactly one notification per acknowledgement, handed over or stored as a row the sender's registration loads; the same ACK again changes nothing |
| `Serial.MessageOutcome` | src/message_handler.cpp:49-95 | the tables and the hand-off after a whole message, for an online and for an absent destination |
| `Serial.RequestIsSent` | src/message_handler.cpp:63-92 | a request to an online client is handed over, SENT, and correlated to its sender alone |
| `Serial.RequestIsAcknowledged` | src/message_handler.cpp:255-277 | request and ACK end to end: exactly that row is DELIVERED, no other row changes, the sender is told once |
| `Serial.ReplyOutcome` | src/message_handler.cpp:138-187 | a whole reply whose owner is on file is filed for the owner, and handed to it if online |
| `Serial.RequestIsReplied` | src/message_handler.cpp:146-187 | request and reply end to end: whatever destination the reply names, it reaches or awaits the requester |
| `HandOver.SweepIsCorrect` | src/router.cpp:317-356 | after a sweep each expired row is SENT and handed over again if its client is online, PENDING otherwise; all other rows and the correlations stay |
| `HandOver.RegistrationHandsOver` | src/router.cpp:144-247 | after a registration nothing waits for the client; messages then replies went to it, each oldest first; messages with the ACK flag are SENT, all else DELIVERED; no other row changed |
| `HandOver.RegistrationCutShort` | src/router.cpp:175-179 | if the session goes offline in a loop, exactly a prefix of the waiting messages, then of the replies, was handed over, in order, each row of it SENT or DELIVERED as it should be; all other rows are as they were; and nothing else cuts it short |
| `HandOver.StoreAndForwardIsTransparent` | src/storage.cpp:486-525 | a frame that came for an absent client reaches it byte for byte when it registers, for names without NUL |
| `Refinement.HandlersExtendRuns` | src/router.cpp:51-57 | a handler that runs alone extends any run of the broker, so the theorems over runs hold for sequences of handlers |
| `Refinement.RunsKeepAccounts` | src/session.cpp:49-134 | over any run of the broker and any run of the send queue, what a session has stored keeps its rows and what it has sent keeps its frames |
| `Pump.NoLostWakeUp` | src/server.cpp:190-200 | in every reachable state, a non-empty queue of a running server is about to be looked at, for any number of threads |
| `Pump.EverySendIsInOnePlace` | src/server.cpp:190-261 | every accepted send is in the queue, in one batch, or finished with its callback run, as often as it was accepted, also across Stop |
| `Pump.InternalStepsDescend` | src/server.cpp:252-287 | every step that is not a new send, a socket event or Stop lowers a rank |
| `Pump.PumpTerminates` | src/server.cpp:270-276 | left alone, the pump takes at most that many more steps |
| `Pump.StopsOnlyWhenEmpty` | src/server.cpp:252-258 | where it stops with the server running, every accepted send is finished |
| `Pump.OrderStep` | src/server.cpp:202-250 | a step keeps the order of the SendToClient calls if and only if it does not overtake |
| `Pump.SendKeepsOrderIff` | src/server.cpp:202-249 | a send keeps the order if and only if every older one still in flight equals it |
| `Pump.DrainKeepsOrderIff` | src/server.cpp:349-358 | the drain of Stop keeps the order if and only if the queue and what is in flight are repetitions of one block of sends, or one is empty |
| `Pump.DistinctDrainKeepsOrderIff` | src/server.cpp:349-358 | where no two sends in flight or queued are equal: if and only if the queue or what is in flight is empty |
| `Pump.OneProcessorKeepsOrder` | src/server.cpp:190-261 | with one processor at a time sends leave in the order of the calls, up to the drain of Stop |
| `Pump.OverlapBreaksOrder` | src/server.cpp:252-276 | a posted task that has passed its flag check and a socket event on another thread can reorder any two different sends |
| `ServerLayer.Server.SendToClient` | src/server.cpp:278-287 | the push and the post of the machine, and nothing else |
| `ServerLayer.Server.ProcessPendingSends` | src/server.cpp:190-261 | with other threads calling SendToClient meanwhile: everything queued at the start is finished in order, what came since stays queued with a task posted, and all of it is a run of the machine |
| `ServerLayer.Server.RunPostedTask` | src/server.cpp:270-276 | a posted task does nothing if stopped or busy; otherwise the queue is empty afterwards or has a task of its own |
| `ServerLayer.Server.Stop` | src/server.cpp:342-358 | the first call finishes all queued sends as failed, once; a later one does nothing |
| `Outbox.SpillAddsRows` | src/session.cpp:103-106 | spilling adds one PENDING row per message, in order, addressed to the client, and changes nothing else |
| `Outbox.EnqueuesAlone` | src/session.cpp:92-109 | n enqueues from empty spill exactly the oldest 50*max(0, (n-51)/50) messages, and at most 100 stay queued |
| `Outbox.SpillArithmetic` | src/session.cpp:97-103 | one more enqueue spills exactly the difference of two consecutive counts |
| `Outbox.KeptStaysSmall` | src/session.cpp:97-103 | an enqueue on at most 100 messages keeps at most 100, where saving succeeds |
| `SessionLayer.Session.GivenIsAccountedFor` | src/session.cpp:49-60 | while the accounts stand, every message ever given to the session is queued, or a row of its client with its content, or has its frame accepted, or fits in no frame |
| `SessionLayer.Session.OthersKeepAccounts` | src/storage.cpp:62-69 | the accounts survive whatever keeps the contents of rows and only adds frames |
| `SessionLayer.Session.SendMessage` | src/session.cpp:49-60 | always true when it returns; the message is then with the server as its frame, or in the queue, or (queue over the threshold) older ones are rows; it is lost only if online and out of bounds; the accounts stand |
| `SessionLayer.Session.SendZmqMessage` | src/session.cpp:62-90 | within the bounds exactly one SendToClient with the frame; otherwise the session goes offline |
| `SessionLayer.Session.EnqueueMessage` | src/session.cpp:92-109 | the older half is spilled past the threshold; a failure leaves exactly the messages not saved; exactly when more than 100 stay; the accounts stand |
| `SessionLayer.Session.PersistQueueToDatabase` | src/session.cpp:24-47 | everything queued becomes rows in order; a failure leaves exactly the unsaved suffix; nothing without the callback; the accounts stand |
| `SessionLayer.Session.FlushQueue` | src/session.cpp:111-134 | exactly a prefix of the queue leaves, in order, each message with its frame accepted; all of it if the session stays online; the accounts stand |
| `SessionLayer.PersistMessageForClient` | src/router.cpp:249-254 | one PENDING row addressed to the client, or an exception and no change |
| `Exits.DrainsSaves` | src/session.cpp:39-44 | what left the queue is in PENDING rows of the client, in order, and what was saved before stays saved |
| `Registry.IndexNeverDangles` | src/router.cpp:59-132 | after any upserts, unregistrations and cleanups every identity of the index leads to a registered name with that identity |
| `Registry.RouteFindsSession` | src/router.cpp:32-39 | the second lookup of RouteMessage always succeeds, and two identities never lead to one name |
| `Registry.UpsertKeepsCompleteIff` | src/router.cpp:70-95 | an upsert keeps every name reachable through the index if and only if no other name uses the identity |
| `Registry.SharedIdentityHidesAName` | src/router.cpp:70-95 | two names with one identity: the first stays registered and is not found by it |
| `Registry.MapsAreInverse` | src/router.cpp:59-132 | with distinct identities the two maps are inverse after any sequence of operations |
| `Registry.CleanupIsUnregistration` | src/router.cpp:294-309 | a cleanup is the unregistration of its names, one by one, in any order |
| `RouterLayer.Router.FindSender` | src/router.cpp:32-39 | an identity in the index yields the registered session that has it |
| `RouterLayer.Router.UpsertClient` | src/router.cpp:59-110 | the old session's queue is in rows and it is offline before it is replaced; if saving fails the registry is as before |
| `RouterLayer.Router.UnregisterClient` | src/router.cpp:112-132 | the name and its identity go, and the index does not dangle |
| `RouterLayer.Router.HandTo` | src/session.cpp:49-60 | a send to a registered session is one call of the machine: the session is given exactly this message; online, its frame with the client's identity is accepted; what it spills are rows |
| `RouterLayer.Router.DeliverOfflineMessages` | src/router.cpp:144-199 | the loop is a run of the machine, handing over exactly what the sessions were given, whatever fails and whenever the session goes offline |
| `RouterLayer.Router.DeliverPendingReplies` | src/router.cpp:201-247 | the loop over the pending replies is a run of the machine in the same way |
| `RouterLayer.Router.FlushNothing` | src/router.cpp:198 | the flush at the end has nothing to send |
| `RouterLayer.Router.CheckExpiredAcks` | src/router.cpp:317-356 | the retry loop is a run of the machine; with no timeout it does nothing |
| `RouterLayer.Router.CleanupInactiveSessions` | src/router.cpp:271-315 | exactly the sessions online and not silent too long stay, untouched; the queues of the others are in PENDING rows; both maps lose exactly those names; no old row changes |
| `RouterLayer.Router.RemoveOne` | src/session.cpp:19-22 | dropping a session saves what it still had queued |
| `Handlers.HandOffsAreFrames` | src/session.cpp:62-64 | undisturbed, the hand-offs of a handler are exactly the frames the send queue accepted meanwhile, in order, each with the identity its client registered with |
| `Handlers.HandleMessage` | src/message_handler.cpp:49-136 | every path through the handler, with its rollbacks, is a whole run of the machine from the state it met, and keeps the table invariants; undisturbed, the message has its row and correlation and, for an online client, is handed over and SENT or DELIVERED by its flag |
| `Handlers.HandleReply` | src/message_handler.cpp:138-226 | every path of a reply, with its rollbacks, is a whole run of the machine from the state it met, and keeps the table invariants; undisturbed, and with one owner per id, a reply to a known id is filed for the owner, and handed over if the owner is online |
| `Handlers.HandleAck` | src/message_handler.cpp:228-297 | every path of an ACK is a whole run of the machine from the state it met, and keeps the table invariants; undisturbed, and with one owner per id, the row behind the id becomes DELIVERED and its sender is told once, or nothing happens; correlation id 0 does nothing |
| `Handlers.HandleRegister` | src/message_handler.cpp:7-47 | an empty name does nothing; otherwise the old session's queue is in rows, the registry is upserted, and the rest is a run of the machine with the new session online; undisturbed, nothing waits for the client afterwards; if saving fails the registry is as before |
| `Handlers.UnregisterSession` | src/message_handler.cpp:303-309 | the queue is in rows, the session is offline and unregistered; if saving fails it stays registered with exactly what is not saved |
| `Handlers.HandleUnregister` | src/message_handler.cpp:299-310 | an unknown name changes nothing; a registered one has its queue in rows and leaves both maps, or all stays registered if saving fails |
| `Handlers.AckTimerFires` | src/server.cpp:309-312 | a whole sweep is a run of the machine and keeps the table invariants; undisturbed, each expired row ends SENT if its client is online and PENDING otherwise, and no other row changes |
| `Handlers.RouteMessage` | src/router.cpp:21-57 | every message off the wire, of any type and whatever throws, leaves registry and tables in order; all but registrations and unregistrations leave the registry alone and are one run of the machine |

## Left out

- ZeroMQ sockets, file descriptors and the receive loop of `OnZmqEvent`: a frame send may succeed or fail, and a socket event lets a processor enter.
- Boost.Asio: a posted handler is a counter, a timer a call that may happen at any time.
- SQLite itself (files, WAL, busy timeout, statement caching): each statement has its relational effect; ids grow by one from the counter and never overflow.
- Metrics, logging, `ToString`, `PrintActiveClients`, configuration parsing, `main`, signals and the client's shell: no effect on delivery.
- Mutexes: each locked region is one step. `CleanupInactiveSessions` calls `UpdateSessionMetrics`, which locks the registry mutex that is already held; the model has no locks and so says nothing about that.
- The delivered-at time is a column that no property speaks about; `last_activity_` is never read and not modelled.
- The send callback's `MarkOffline`: the environment may take a session offline at any call (`Drops` in the machine, `Interference` in the classes); callbacks do not throw.
- A session's destructor while the handler that replaced or unregistered it still runs: by then its queue is saved, so it has nothing to do; a destructor that throws ends the process.
- The client's `Deserialize`: the same checks in the same order as the broker's.
- The seen-id set in `LoadPendingRepliesForSenderOnly`: SELECT DISTINCT already returns each row once.
- Who sends an ACK or a registration: the code does not check it, so nothing is claimed.
- Clients that never come back, and how long anything takes: stated instead as "found by a loader" and as the rank of the pump.
- ServerLayer.Server.ProcessPendingSends: other threads only call SendToClient during the loop; a second processor and Stop are steps of `Pump`, where every interleaving is.
- Handlers.HandleMessage: the registry does not change while the handler is in flight, because the objects are used by one thread; the machine lets every answer of the registry happen at every call.
- RouterLayer.Router.CleanupInactiveSessions: sessions that another thread takes offline during the loop are not modelled.
