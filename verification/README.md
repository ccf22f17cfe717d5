# Verification of rest_rpc

A Dafny model of the RPC library: the protocol between `rpc_client` and `connection`, the frame
format, the router, the server's registries, the MD5 that makes function ids, and the
`basic_streambuf` of the vendored asio, with proofs of what they keep. `dafny verify
dfyconfig.toml` checks everything.

## How it is built

| file | models |
|---|---|
| Bytes.dfy | bytes, integer widths, little-endian fields |
| Framing.dfy | `rpc_header`, frames, and the meaning of a byte stream for the read loop |
| WriteQueue.dfy | a queue behind one asynchronous write, as a value |
| Writer.dfy | what such a queue has put on the wire, byte by byte |
| Connection.dfy | `connection`: read loop over reused members, reply queue |
| Outbox.dfy | the members of `rpc_client` guarded by its write mutex |
| Calls.dfy | id allocation, the promise and callback maps, completion |
| RpcClient.dfy | `rpc_client`: calls, read loop, subscriptions, close |
| Protocol.dfy | what calls, replies and publications keep, wherever they are |
| RpcSystem.dfy | client, server connection and both wires as one step system |
| CallsByName.dfy | what a call by name gets, over any run of the system |
| Delivery.dfy | which step completes which call, with what, over any run |
| Progress.dfy | that every call can still be completed |
| Subscriptions.dfy | subscriptions and heartbeats on their way to the server, over any run |
| Publications.dfy | the order of publications over any run of the system |
| Broadcast.dfy | the server's `publish` as steps of each connection's system |
| Wires.dfy, Refinement.dfy, ReplyRefinement.dfy | the frames in transit between the classes' bytes, and the system's steps on them |
| ClientActions.dfy | what the client class does for the program, as steps of the system |
| Codec.dfy | the MessagePack strings and tuples the protocol builds itself |
| Router.dfy | `router`: the two tables, dispatch, reply accounting |
| RpcServer.dfy | connection and subscription registries with their cleaners |
| Md5.dfy, Rfc1321.dfy, Md5Conformance.dfy | the source's MD5, RFC 1321, and their agreement |
| FunctionIds.dfy | the function id of a name, from RFC 1321 |
| UnitAngle.dfy, SineTable.dfy | the constants of MD5 as integer parts of multiples of sines |
| Streambuf.dfy | `basic_streambuf` as a byte queue in one buffer |

Classes carry the source's fields and one method per mutex-protected section or completion
handler; what the network, the clock or a handler does in between is a parameter. Their contracts
tie each method to pure functions, and `RpcSystem` composes the same functions into a step system,
so that one induction covers every interleaving of threads and handlers. `Refinement`,
`ReplyRefinement` and `ClientActions` relate the two: what the classes do are steps of the system or
nothing. A frame travels in the system
as a packet that also carries the serial number of the call it belongs to. That number is only
copied into replies and recorded; which call a reply completes is decided by its id alone, and the
theorems say that the two agree. What handlers do is a relation between a handler, the bytes it is
given and what comes of them (`Program`), fixed for a run but otherwise arbitrary.

## What was found

Statements one might expect that the code does not meet, each with its exact condition:

- `n * 8` is computed in 32 bits (include/rest_rpc/md5.hpp:73): the padding is the RFC's if and
  only if the message is shorter than 2^29 bytes (`PaddingConformsExactly`).
- `MD5Hash32` stops at the first NUL: names that agree up to it share a function id
  (`KeyStopsAtNul`).
- `reserve` shifts the unread bytes before it may throw; they survive a throw if and only if the
  shift changes nothing (`ContentsAfterFailedReserve`), and whatever they are if and only if nothing
  was read or they fit into the space already read (`SurvivesByPosition`). The documentation of
  `prepare` does not say so.
- `prepare` also throws within `max_size()`, when the vector behind it cannot grow that far: for
  2^63 bytes with the default maximum size (`PrepareWithinMaximumThrows`). `overflow` asks for up to
  128 bytes and throws when so many cannot be had, although one byte might.
- `consume` adds its count to a pointer. If the sum wraps around, the count is not capped: the
  largest count takes the read position one back (`ConsumeCanUnread`), and `size()` may then exceed
  `max_size()` (`ConsumeGrowsBeyondMaximum`). `commit` and `consume` also pass their count through a
  32-bit `int`. The exact conditions are in `Commit`, `ConsumeLimits` and `ConsumeLimitsAnywhere`.
- `publish` looks at the subscription map in two separate locked sections: a cleaning pass before
  the first and a subscriber arriving between them can be told apart from no pass at all
  (`CleanerVisibleExactly`).
- The message that replaces an oversized result contains the function's name, and exceeds the
  limit itself if and only if the name has at least MAX_BUF_LEN - 58 bytes (`RepliesFit`).
- `clear_cache` empties the outbox while a write may be in flight. Its first run frees the buffer
  that is being written if and only if there is one (`Outbox.Clear`). The next request starts a
  second write if and only if a write is in flight while the queue is empty (`SecondWrite`), which
  can happen even after the cleared write has completed (`SecondWriteAfterCompletion`). The
  completion of the cleared write frees whatever is at the front, if and only if another write reads
  it a buffer in use (`Outbox.OnWrite`, `CompletionCanFreeBusy`).
- A local `close` has three sections. A pending body read that is aborted between them completes
  its call; one that is aborted after the maps were cleared, or that belongs to a publication,
  reaches a failing assertion in `call_back`, and so does a failing read of a publication
  (`AssertionsExactly`).
- An asynchronous handler that answers with an empty reply makes the client close, since an empty body
  is a length its read loop refuses (`EmptyHeadCloses`); `EveryCallCanEnd` excludes it.
- After a failed write or a failed body read `close` returns early, because the connected flag has
  just been cleared: outbox and call maps stay as they were (`RpcClient.OnWrite`, `FailBody`). A head read
  that fails after a failed write therefore leaves the callbacks it has invoked in the map
  (`RpcClient.OnHead`), where a later failure finds them again; `CompletedOnce` is about runs up to
  the first failure.
- A body length of MAX_BUF_LEN stops either read loop without closing; for the server, so does any
  larger one, and a failed body read (`Connection.OnHead`, `Connection.OnBody`,
  `RpcClient.OnHead`).

## Model

| member | source | states |
|---|---|---|
| CallsByName.CorrelationByName | include/rest_rpc/rpc_client.hpp:246-264 | Over every interleaving of calls, write completions, registrations, server reads, synchronous and asynchronous handlers, client reads, timers, closes and failures: a call by name that is completed without an error holds what the function registered last under that name, at some moment between the call and its completion, makes of the call's own arguments (its result, its exception, its failed unpacking, the message for an oversized result, or an asynchronous handler's later reply), or says that there is no such function; provided no other registered name has the same key |
| RpcSystem.Correlation | include/rest_rpc/rpc_client.hpp:467-544 | In every interleaving a call completed without an error holds the reply to a request that was dispatched with the call's own function id and argument bytes; the handler found for the id ran on those bytes, and the reply is the router's for that run or one that this asynchronous handler may send for them |
| RpcSystem.HistoryStands | include/rest_rpc/rpc_client.hpp:244-289 | Over a whole run no request, answer, completion or delivered publication is ever changed once it has happened, and registrations are only added, so the correlation is with the call's first and only answer |
| Delivery.BodyDelivers | include/rest_rpc/rpc_client.hpp:467-474 | Over any run, a reply body that arrives completes the call it answers, that call alone and with exactly the reply it was given and no error; or, if and only if the call's timer has fired since it was made, with the time-out |
| Delivery.BodyErrorEnds | include/rest_rpc/rpc_client.hpp:485-490 | A body that fails to arrive completes its call with the read error and no data, under the same exception |
| Delivery.BodyAbortedEnds | include/rest_rpc/rpc_client.hpp:468-471 | A body aborted by a close under way completes its call as aborted, under the same exception, until the maps are cleared |
| Delivery.HeadErrorEnds | include/rest_rpc/rpc_client.hpp:455-461 | A failing head read completes every waiting callback and nothing else, with the read error |
| Delivery.OthersEndNothing | include/rest_rpc/rpc_client.hpp:510-544 | No other step of the system completes a call |
| Delivery.FailuresRead | include/rest_rpc/client_util.hpp:14-21 | Whatever makes a call fail over a run, `has_error` of what its caller is given is true |
| Delivery.FlagsAreTimers | include/rest_rpc/rpc_client.hpp:597-601 | In every live state of a run the time-out flag of a waiting call is up exactly if its timer has fired since it was made |
| Progress.EveryCallCanEnd | include/rest_rpc/rpc_client.hpp:244-289 | From every state of a run in which the connection works, if the program's functions can return or answer at all, the run has a continuation, without further calls, at whose end every call made has been completed and the connection still works |
| Progress.ProgramIsFree | include/rest_rpc/router.h:57-88 | While the connection works, calls, registrations, publications, timers and every possible run of a function may happen at any time |
| RpcSystem.OnePlace | include/rest_rpc/rpc_client.hpp:393-455 | Until a close has cleared the maps every call is either completed or registered, and a registered one is in exactly one place: staged, outbox, wire, handler, freed unsent by the close (unanswered), or reply queue, wire back, client's read (answered) |
| RpcSystem.EveryIdIsRegistered | include/rest_rpc/rpc_client.hpp:510-544 | Whatever bears a non-zero id anywhere in the system belongs to a call registered under that id |
| RpcSystem.CompletedOnce | include/rest_rpc/rpc_client.hpp:455-461 | In every state of a run no promise has been set and no callback invoked twice; a run goes up to and including the first connection failure or failing assertion, or through a close by the program |
| RpcSystem.AssertionsExactly | include/rest_rpc/rpc_client.hpp:467-544 | An `assert` fails in a run exactly in these steps: a body fails to arrive, or is aborted by a close under way, while it is a publication's (id 0); a body is aborted after the close has cleared the maps; the router's reply is too long; the program queues arguments, a subscription, a handler's reply or a publication of MAX_BUF_LEN or more |
| RpcSystem.PublicationsHaveHandlers | include/rest_rpc/rpc_client.hpp:546-557 | Every publication on its way to the client unpacks to a composite key with a handler, and none is ever dropped for want of one |
| RpcSystem.OneWriteEach | include/rest_rpc/rpc_client.hpp:399-430 | At most one write is in flight on either side, exactly while that side has something queued: at the server always, at the client until the program closes the connection |
| RpcSystem.RunIsSound | include/rest_rpc/rpc_client.hpp:244-289 | The system invariant holds in every state of every run, from any registrations and with any subscriptions queued again at the start |
| RpcSystem.StepIsSound | include/rest_rpc/connection.h:134-235 | Each of the twenty-four steps keeps the system invariant |
| RpcSystem.StepAsserts | include/rest_rpc/rpc_client.hpp:510-544 | A step fails an assertion if and only if it is one of those named by `Asserts` |
| RpcSystem.ServeIsSound | include/rest_rpc/connection.h:187-201 | The server's read, routing and subscription step keeps conservation, whether the router answers, defers or the frame is a subscription or a heartbeat |
| RpcSystem.BodyErrorIsSound | include/rest_rpc/rpc_client.hpp:468-490 | A body that fails to arrive, or is aborted before the maps are cleared, completes the call it answers with the error; it hits the assertion exactly when it belongs to no call |
| RpcSystem.LateBodyIsSound | include/rest_rpc/rpc_client.hpp:469-471 | Once a close has cleared the maps, the handler of a pending body read always hits the assertion |
| Subscriptions.SubscriptionArrives | include/rest_rpc/rpc_client.hpp:312-324 | Over any run, after a subscription its own frame is on its way, exactly once, until the server holds its key and not any more then; and the key's handler is the one given, for good |
| Subscriptions.ResentArrives | include/rest_rpc/rpc_client.hpp:501-505 | On a connection made anew the same holds of one frame for each handler of before |
| Subscriptions.PacketsConserved | include/rest_rpc/rpc_client.hpp:393-431 | Of any packet that belongs to no call (subscriptions, heartbeats): those on their way and those the server has read are together those the connection began with and those the program has had sent since |
| Subscriptions.NothingDropped | include/rest_rpc/rpc_client.hpp:563-570 | While the connection works nothing on its way has been freed unsent |
| CallsByName.HistoryIsActions | include/rest_rpc/router.h:24-45 | At any moment of a run the registrations are those the connection began with and then those the program has made and removed, in order |
| ClientActions.CallsFuture | include/rest_rpc/rpc_client.hpp:246-264 | As objects: a call parks and queues what the system's call and enqueue steps do |
| ClientActions.CallsCallback | include/rest_rpc/rpc_client.hpp:268-289 | The same for a call with a callback |
| ClientActions.Subscribes | include/rest_rpc/rpc_client.hpp:312-324 | A subscription does what the system's subscription and enqueue steps do, with its frame in the outbox |
| ClientActions.WriteDone | include/rest_rpc/rpc_client.hpp:423-429 | A completed write is the system's completion |
| ClientActions.WriteFails | include/rest_rpc/rpc_client.hpp:416-421 | A failed write is the system's write error: calls, subscriptions and queue stay, the connection counts as lost |
| ClientActions.Closes | include/rest_rpc/rpc_client.hpp:185-200 | A close with nothing in between is the system's three closing steps |
| ClientActions.Connects | include/rest_rpc/rpc_client.hpp:367-369 | A client that connects is in a state a run of the system may start from, with its subscriptions queued again |
| RpcSystem.ClearOutboxIsSound | include/rest_rpc/rpc_client.hpp:563-570 | The second section of a close frees what is queued without completing, losing or duplicating a call |
| RpcSystem.StartIsSound | include/rest_rpc/rpc_client.hpp:501-505 | A connection that starts with the frames of all subscriptions queued again satisfies the system invariant |
| Publications.PublicationsInOrder | include/rest_rpc/rpc_server.h:163-179 | Over any run, what the client's handlers have been given followed by what is on its way to them is what was published for this connection, each publication once, in order, for the handler filed under its key; after a failure what they have been given is still a prefix of it |
| Broadcast.DeliveredTimes | include/rest_rpc/rpc_server.h:163-179 | A connection that stays open gets a publication exactly as often as it has subscribed to the key, whatever cleaning passes, other subscriptions and deaths there have been |
| Broadcast.StepTracks | include/rest_rpc/rpc_server.h:103-109 | Every step of a connection's system keeps its keys in agreement with the connection's entries in the registry, when what the subscription callback enters is added to it |
| Broadcast.PublishIsSteps | include/rest_rpc/rpc_server.h:163-179 | One call of `publish` continues the run of an open connection's system with one Publish step for each delivery to that connection, none exactly if it holds no such key; what its handler is to be given grows by the data as many times, and nothing else changes |
| Wires.RequestsArrive | include/rest_rpc/connection.h:134-206 | End to end over bytes: whatever the server has read of the bytes the outbox has put on the wire, the messages it has dispatched, those in transit and those not completely sent are together the requests queued, in order; and an open server reads on |
| Wires.RepliesArrive | include/rest_rpc/rpc_client.hpp:433-492 | The same from the server's queue to the client, up to the function id it ignores |
| Wires.NothingElse | include/rest_rpc/connection.h:208-235 | Frames read, in transit and unsent make up everything queued, empty frames included, wherever the bytes are cut |
| Refinement.PushIsPush | include/rest_rpc/rpc_client.hpp:393-404 | Queueing a message on the byte level is the system's push |
| Refinement.LastByteIsSend | include/rest_rpc/rpc_client.hpp:408-415 | Of the bytes of a frame only the last one is a step of the system: it puts the frame on the system's wire |
| Refinement.WriteDoneIsComplete | include/rest_rpc/rpc_client.hpp:423-429 | A completed write is the system's completion |
| Refinement.HeaderIsFront | include/rest_rpc/connection.h:145-165 | A header read takes an empty frame, and nothing else, off the system's wire |
| Refinement.BodyIsFront | include/rest_rpc/connection.h:177-192 | A body read is the front of the system's wire, with its id, type, function id and bytes |
| Refinement.HeaderIsHeld | include/rest_rpc/rpc_client.hpp:439-447 | The header the client acts on is that of the next packet of the system, on the wire or being sent |
| Refinement.DispatchIsServed | include/rest_rpc/connection.h:187-201 | What `connection` dispatches after a body, from its reused members, is the message the system serves next |
| ReplyRefinement.PushLinks | include/rest_rpc/connection.h:48-57 | The way back, where the system may be one packet ahead of the bytes: queueing a reply is the system's push |
| ReplyRefinement.BytesLink | include/rest_rpc/connection.h:208-220 | The last byte of a frame is the system's send, unless the client has already read the header |
| ReplyRefinement.DoneLinks | include/rest_rpc/connection.h:222-235 | A completed write is the system's completion |
| ReplyRefinement.HeadLinks | include/rest_rpc/rpc_client.hpp:439-447 | A header announcing a body is the system's ClientHead, after ServerSends if nothing is on the wire, and the packet is the one with that header |
| ReplyRefinement.BodyLinks | include/rest_rpc/rpc_client.hpp:467-476 | A body read is that of the packet being read, and nothing is ahead of the bytes any more |
| ReplyRefinement.ReadsHead | include/rest_rpc/rpc_client.hpp:433-453 | `rpc_client`'s head handler leads to the state the system's steps lead to: calls, completions, handlers, what they were given, the outbox, and where the loop stands |
| ReplyRefinement.FailsHead | include/rest_rpc/rpc_client.hpp:455-463 | A failing head read is the system's HeadError with the callbacks it invokes |
| ReplyRefinement.ReadsBody | include/rest_rpc/rpc_client.hpp:467-484 | The body handler does what the system's ClientBody does, and fails its assertion exactly when the system does |
| ReplyRefinement.FailsBody | include/rest_rpc/rpc_client.hpp:485-490 | A failing body read is the system's BodyError, assertion included |
| ReplyRefinement.AbortsBody | include/rest_rpc/rpc_client.hpp:468-471 | A body handler that finds the socket closed is the system's BodyAborted, assertion included |
| Protocol.AskKeeps | include/rest_rpc/rpc_client.hpp:246-264 | A new call under an id of its own keeps the whole protocol invariant and adds one question |
| Protocol.AnswerKeeps | include/rest_rpc/router.h:57-88 | Answering a question moves its one place to the reply, under the same id and call |
| Protocol.FinishKeeps | include/rest_rpc/rpc_client.hpp:510-544 | A reply handed over, or whose body failed, completes its own call without a failing assertion and leaves every other call where it was |
| Protocol.FailAllKeeps | include/rest_rpc/rpc_client.hpp:455-461 | A failing head read is the first completion of every callback it invokes |
| Protocol.LearnKeeps | include/rest_rpc/rpc_server.h:103-109 | Learning a subscription keeps the invariant as long as the server's keys are the client's |
| WriteQueues.WritesInFlight | include/rest_rpc/rpc_client.hpp:399-430 | Over any run, with clearings, failures and completions of cleared writes anywhere in it: the writes in flight are one for a non-empty queue plus the orphans (clearings of a non-empty queue, less failures and completions that find nothing to pop) |
| WriteQueues.OneWrite | include/rest_rpc/rpc_client.hpp:399-430 | Without a clearing or a failure there is at most one write, and one exactly when something is queued |
| WriteQueues.SecondWrite | include/rest_rpc/rpc_client.hpp:563-570 | The next message starts a second concurrent write if and only if a write is in flight while the queue is empty, which in terms of the history is an empty queue with orphans |
| WriteQueues.TwoWritesPossible | include/rest_rpc/rpc_client.hpp:415-430 | Without another clearing, two concurrent writes can still come about if and only if there are orphans, over all continuations |
| WriteQueues.SecondWriteAfterCompletion | include/rest_rpc/rpc_client.hpp:423-429 | The cleared write may even have completed: it pops the message queued after the clearing, and the next one starts a second write |
| WriteQueues.SecondWriteCanStart | include/rest_rpc/rpc_client.hpp:563-570 | A concrete run with two writes in flight |
| WriteQueues.WireIsHistory | include/rest_rpc/rpc_client.hpp:399-430 | What was written and what is unsent make up the messages queued, in order, without a clearing and when a write completes only after its frame is sent |
| Writers.WireIsInOrder | include/rest_rpc/connection.h:208-235 | Byte level: the wire is a prefix of the frames of a prefix of the enqueue history, and the peer has read exactly the frames completely sent |
| Framing.CastLayout | include/rest_rpc/const_vars.h:31-38 | Reading a header back from its 24 bytes gives the header, for any padding bytes |
| Framing.LayoutCast | include/rest_rpc/const_vars.h:31-38 | Every 24 bytes are the layout of the header read from them |
| Framing.ReadBack | include/rest_rpc/connection.h:134-192 | Round trip: any list of messages with bodies below MAX_BUF_LEN is read back as its non-empty messages in order, with ids, types and function ids, all bytes used |
| Framing.UsedBytesAreFrames | include/rest_rpc/connection.h:134-192 | Converse: the bytes the loop has used are exactly the layout of frames whose non-empty messages it delivered |
| Framing.ParseResumes | include/rest_rpc/connection.h:134-192 | Reading is independent of how the bytes are cut: an open parse resumes from its unread rest, an ended one stays ended |
| Framing.PrefixDelivers | include/rest_rpc/connection.h:134-192 | Any prefix of a conforming stream leaves the loop open with a prefix of the messages delivered |
| Framing.LastByteDelivers | include/rest_rpc/connection.h:179-191 | A message is delivered exactly when the last byte of its frame has arrived |
| Framing.HeaderAfter | include/rest_rpc/connection.h:145-165 | What one more header does to a used-up stream: bad magic closes, a length of MAX_BUF_LEN or more stalls, an empty body is skipped |
| Framing.BodyAfter | include/rest_rpc/connection.h:177-192 | The body a pending header announces completes that header's message |
| Connections.Connection.OnHead | include/rest_rpc/connection.h:137-173 | The head handler on every path: what is consumed, the read started next, and when the connection closes |
| Connections.Connection.HandleHeader | include/rest_rpc/connection.h:144-165 | The error-free head handler keeps the reader's invariant over the reused members |
| Connections.Connection.OnBody | include/rest_rpc/connection.h:179-205 | The dispatched call has the id, type, function id and exact bytes of one and the same frame, although the next head read has already overwritten `head_` and `body_` only grows; a read error reports and starts nothing |
| Connections.Connection.ConformingPeer | include/rest_rpc/connection.h:134-206 | With a conforming peer and no I/O error an open connection always has a read outstanding and has dispatched a prefix of what was sent |
| Connections.Connection.Response | include/rest_rpc/connection.h:48-57 | Queues the reply and starts a write only when the queue was empty; a stopped queue never writes again |
| Connections.Connection.Write | include/rest_rpc/connection.h:208-220 | The header and size members describe the front |
| Connections.Connection.Transmit | include/rest_rpc/connection.h:213-219 | The bytes sent are those of the two buffers, in order |
| Connections.Connection.OnWrite | include/rest_rpc/connection.h:222-235 | A successful completion pops the front and writes the next; a failed one, or one that notices a close, stops the queue for good |
| Outboxes.FreedOnceOrQueued | include/rest_rpc/rpc_client.hpp:393-431 | Each buffer ever released has been freed exactly once or is still in the outbox, in every state, `clear_cache` included |
| Outboxes.Outbox.SafeUntilCleared | include/rest_rpc/rpc_client.hpp:423-429 | Until the first clearing no buffer is freed while a write in flight reads it |
| Outboxes.Outbox.Write | include/rest_rpc/rpc_client.hpp:393-404 | Queues a request, taking over its buffer, and starts a write only when the outbox was empty |
| Outboxes.Outbox.StartWrite | include/rest_rpc/rpc_client.hpp:406-415 | The header and size members describe the front; one more write is in flight |
| Outboxes.Outbox.Transmit | include/rest_rpc/rpc_client.hpp:408-415 | The only write's bytes go on the wire in order |
| Outboxes.Outbox.OnWrite | include/rest_rpc/rpc_client.hpp:423-429 | Frees and pops the front if there is one, and writes the next, also after a clearing; no write then reads a freed buffer if and only if none of the other writes did and none of them reads the front's |
| Outboxes.CompletionCanFreeBusy | include/rest_rpc/rpc_client.hpp:423-429 | A concrete run: after a clearing the completion of the cleared write frees the buffer the second write is reading |
| Outboxes.Outbox.OnWriteError | include/rest_rpc/rpc_client.hpp:416-421 | A failed write leaves the queue as it is |
| Outboxes.Outbox.Clear | include/rest_rpc/rpc_client.hpp:563-570 | Frees every queued buffer once, in order; the first clearing takes a buffer away from a write if and only if a write is in flight |
| RpcClients.RpcClient.ParkFuture | include/rest_rpc/rpc_client.hpp:250-256 | The promise waits under the next future id |
| RpcClients.RpcClient.ParkCallback | include/rest_rpc/rpc_client.hpp:274-284 | The callback waits under the next id with the top bit set |
| RpcClients.RpcClient.AsyncCallFuture | include/rest_rpc/rpc_client.hpp:246-264 | Parks the promise and queues the request with the same id and the hash of the name |
| RpcClients.RpcClient.AsyncCallCallback | include/rest_rpc/rpc_client.hpp:268-289 | As above for a callback; without a connection it is invoked at once and nothing is parked or queued |
| RpcClients.RpcClient.CallBack | include/rest_rpc/rpc_client.hpp:510-544 | Completes the call under the id as the specification says, or fails the assertion |
| RpcClients.RpcClient.FailCallbacks | include/rest_rpc/rpc_client.hpp:457-460 | Invokes each parked callback exactly once with the error |
| RpcClients.RpcClient.OnHead | include/rest_rpc/rpc_client.hpp:433-465 | The head handler on every path: closed socket, error, acceptable length, refused length, and the length MAX_BUF_LEN that leads nowhere |
| RpcClients.RpcClient.OnBody | include/rest_rpc/rpc_client.hpp:467-492 | The body handler on every path: which call completes with what, which handler gets the publication, and the read started next |
| RpcClients.RpcClient.ConformingServer | include/rest_rpc/rpc_client.hpp:433-492 | With a server that sends frames, a connected client always has a read outstanding and has received, in order, a prefix of the frames with a body |
| RpcClients.RpcClient.HandleBody | include/rest_rpc/rpc_client.hpp:473-484 | A body read in full is demultiplexed by type and the loop goes on |
| RpcClients.HeaderOutcomes | include/rest_rpc/rpc_client.hpp:439-453 | By the length in a header the body is read (below MAX_BUF_LEN), the client closes (0 or above), or nothing at all is done (MAX_BUF_LEN itself) |
| RpcClients.RpcClient.AbortBody | include/rest_rpc/rpc_client.hpp:469-472 | A body read on a closed socket completes the call with `Aborted`, if it still waits |
| RpcClients.RpcClient.FailBody | include/rest_rpc/rpc_client.hpp:485-490 | A failed body read fails one call and, because of the cleared flag, closes nothing |
| RpcClients.RpcClient.OnWrite | include/rest_rpc/rpc_client.hpp:415-430 | After a failed write `close` returns early: queue, calls and socket stay |
| RpcClients.RpcClient.Close | include/rest_rpc/rpc_client.hpp:185-200 | Clears the caches exactly when the client counted as connected |
| RpcClients.RpcClient.ClearCache | include/rest_rpc/rpc_client.hpp:563-577 | Frees the outbox and forgets every call |
| RpcClients.RpcClient.Subscribe | include/rest_rpc/rpc_client.hpp:312-324 | A second subscription under the same composite key is dropped; otherwise handler, pair and frame are added, and keys stay exactly the composites of the pairs, injectively |
| RpcClients.RpcClient.ResendSubscribe | include/rest_rpc/rpc_client.hpp:501-505 | Queues the frame of every pair exactly once |
| RpcClients.OneFramePerHandler | include/rest_rpc/rpc_client.hpp:501-505 | Resending queues exactly one frame per handler |
| RpcClients.RpcClient.OnConnected | include/rest_rpc/rpc_client.hpp:367-369 | Starts the read loop and resends every subscription |
| RpcClients.RpcClient.CallbackSub | include/rest_rpc/rpc_client.hpp:546-561 | A publication reaches the handler filed under its key, or nobody |
| Calls.FutureIdFormula | include/rest_rpc/rpc_client.hpp:250-256 | The k-th future id is k mod 2^64 |
| Calls.CallbackIdFormula | include/rest_rpc/rpc_client.hpp:274-280 | The k-th callback id is 2^63 + (k mod 2^63), across the wrap-around |
| Calls.CallbackIdsDistinct | include/rest_rpc/rpc_client.hpp:274-280 | Any 2^63 consecutive callback ids are distinct |
| Calls.TopBitSelects | include/rest_rpc/rpc_client.hpp:510-513 | Every callback id passes the `>> 63` test; the k-th future id fails it exactly when k mod 2^64 is below 2^63 |
| Calls.AddFutureParks | include/rest_rpc/rpc_client.hpp:250-256 | A new promise gets an id nobody waits under and disturbs no other call |
| Calls.AddCallbackParks | include/rest_rpc/rpc_client.hpp:274-284 | A new callback likewise, unless a callback still waits from 2^63 calls ago |
| Calls.CallBackFindsTheCall | include/rest_rpc/rpc_client.hpp:510-544 | `call_back` completes exactly the call waiting under the id, and its assertion fails if and only if none does; a call whose timer has fired gets the time-out, any other the code and the data as they are, a promise with an error no data; no other call is touched |
| Calls.TimerKeepsCalls | include/rest_rpc/rpc_client.hpp:597-601 | A timer that fires moves no call and raises exactly its own call's flag |
| Calls.IdsInUseCollide | include/rest_rpc/rpc_client.hpp:250-256 | Under an id still in use the earlier call stays and the later one is not parked |
| Codec.UnpackPackPair | thirdparty/msgpack/msgpack/v1/pack.hpp:1194-1252 | Key and token of a subscription survive packing and unpacking, even where their concatenation is ambiguous |
| Codec.UnpackPackPublication | thirdparty/msgpack/msgpack/v1/pack.hpp:1194-1252 | Key and data of a publication survive packing and unpacking |
| Codec.UnpackPackStatus | include/rest_rpc/client_util.hpp:14-43 | Code and text of a status reply survive the wire, and the receiver takes the reply for a failure exactly if the code is not 0 |
| Codec.ShortestForm | thirdparty/msgpack/msgpack/v1/pack.hpp:1194-1252 | Strings are packed in the shortest of MessagePack's four forms |
| Codec.DecimalIsNumeral | include/rest_rpc/router.h:48-54 | The decimal text of a key is the numeral of that number, without leading zeros |
| Routers.InvokersHoldTheLatest | include/rest_rpc/router.h:199-205 | The invoker under a key is that of the last change of the key: the latest handler, or none after a removal |
| Routers.NamesHoldTheEarliest | include/rest_rpc/router.h:27-28 | The name under a key is the first one registered since the last removal |
| Routers.NoRegistrationMeansAbsent | include/rest_rpc/router.h:41-45 | A key whose registrations have all been removed has no name |
| Routers.KeySetsAgree | include/rest_rpc/router.h:24-45 | The two tables always have the same keys |
| Routers.RoutingByName | include/rest_rpc/router.h:57-75 | If no other name of the history hashes to the same key, routing a name's hash runs exactly that name's last registered handler, or none |
| Routers.KeyStopsAtNul | include/rest_rpc/md5.hpp:229-231 | Two names equal up to their first NUL have the same key |
| FunctionIds.KeyIsDigest | include/rest_rpc/md5.hpp:223-231 | A name's function id is the number that the first four bytes of the MD5 digest of RFC 1321, of its characters up to the first NUL, are when read big-endian (below 2^29 characters) |
| FunctionIds.CollidingNames | include/rest_rpc/md5.hpp:223-231 | Two such names share a function id exactly if their digests begin with the same four bytes |
| Routers.UnknownIsNamedByKey | include/rest_rpc/router.h:66-71 | An unknown function is always named by its decimal key, never by a stale name |
| Routers.RepliesFit | include/rest_rpc/router.h:76-80 | A reply is shorter than MAX_BUF_LEN except exactly when an oversized result meets a function name of MAX_BUF_LEN - 58 bytes or more |
| Routers.RepliesExplain | include/rest_rpc/router.h:57-88 | What the caller reads from the router's reply: the code 1 and the message of the case for a missing function, arguments that do not unpack, an exception, or a result that is too long; else the result itself |
| Routers.Router.RegisterHandler | include/rest_rpc/router.h:24-38 | Adds one registration to the history that the tables replay |
| Routers.Router.RemoveHandler | include/rest_rpc/router.h:41-45 | Adds one removal to the history that the tables replay |
| Routers.Router.GetNameByKey | include/rest_rpc/router.h:48-54 | The first registered name or the decimal key |
| Routers.Router.Route | include/rest_rpc/router.h:57-88 | `response` is called at most once, with the request's own id and the reply of the dispatch specification, from which the caller reads what happened; not at all exactly for an expired connection or an asynchronous handler that returned |
| Registries.CleanerIsInvisible | include/rest_rpc/rpc_server.h:144-179 | In every interleaving of passes, each of which erases any of the entries then dead, a publication reaches the same connections, with multiplicity, as if no cleaning pass had ever run |
| Registries.CleanerVisibleExactly | include/rest_rpc/rpc_server.h:163-179 | `publish` takes the lock twice; with events between the two sections the cleaner makes a difference if and only if somebody had subscribed, the passes have emptied the map by the first section, and between the two somebody subscribes to the key who does not die |
| Registries.CleanerCanBeSeen | include/rest_rpc/rpc_server.h:163-179 | A concrete run in which a new subscriber misses a publication because of a pass |
| Registries.LiveIsExact | include/rest_rpc/rpc_server.h:149-158 | A pass keeps an entry if and only if its connection is alive |
| Registries.RpcServer.CleanSubPub | include/rest_rpc/rpc_server.h:144-160 | One erase-while-iterating pass, with connections dying meanwhile: it terminates, erases every entry dead from the start and none still alive at the end, keeps the others in order, loses exactly the tokens that occur in an erased key, and leaves no token that is the second part of the key of a connection dead from the start |
| Registries.SnapshotPass | include/rest_rpc/rpc_server.h:149-158 | If no connection dies during the pass, exactly the live entries are left |
| Registries.OccursIsInfix | include/rest_rpc/rpc_server.h:152-155 | A token is found in a key exactly if the key consists of it with something before and after |
| Registries.SparedExactly | include/rest_rpc/rpc_server.h:144-160 | A token survives a pass exactly if no erased key contains it anywhere |
| Registries.RpcServer.EraseTokens | include/rest_rpc/rpc_server.h:152-155 | Erases exactly the tokens that occur anywhere in the key |
| Registries.RpcServer.Send | include/rest_rpc/rpc_server.h:170-178 | Delivers to every live entry under the composite key, with multiplicity |
| Registries.RpcServer.Subscribe | include/rest_rpc/rpc_server.h:103-109 | Adds the entry, and the token unless empty |
| Registries.RpcServer.Accept | include/rest_rpc/rpc_server.h:121-123 | Gives an id never given before and registers the connection under it |
| Registries.RpcServer.Clean | include/rest_rpc/rpc_server.h:129-142 | A pass terminates and removes every connection closed from the start and none still open at the end; each removed id is reported, and none twice over whole runs |
| Registries.RpcServer.Expire | include/rest_rpc/rpc_server.h:135-138 | Reports the id of a closed connection and forgets it |
| Md5Conformance.PaddingConformsExactly | include/rest_rpc/md5.hpp:50-78 | The lazily indexed padding is that of sections 3.1 and 3.2 of RFC 1321 if and only if the message is shorter than 2^29 bytes |
| Md5Conformance.PaddingIsMinimal | include/rest_rpc/md5.hpp:50-52 | The padded length is the least multiple of 64 with room for the marker and the length |
| Md5Conformance.WordsGiveBytes | include/rest_rpc/md5.hpp:82-95 | Splitting the message words back into bytes gives the padded bytes |
| Md5Conformance.PaddingIsInjective | include/rest_rpc/md5.hpp:50-95 | Below 2^29 bytes, equal padded words come from equal messages |
| Md5Conformance.BlocksConform | include/rest_rpc/md5.hpp:98-120 | Each round's sixteen words are the RFC's block |
| Md5Conformance.RotationIsCircular | include/rest_rpc/md5.hpp:160-163 | For every shift of the table, shift-or-shift is the circular shift |
| Md5Conformance.MixingConforms | include/rest_rpc/md5.hpp:124-136 | The xor forms of the mixing functions are the RFC's F, G, H and I |
| Md5Conformance.TableConforms | include/rest_rpc/md5.hpp:142-158 | Word index, shift and register order of every step are those of the RFC's 64 operations of section 3.4 |
| SineTable.ConstantsAreSines | include/rest_rpc/md5.hpp:22-33 | Each constant of the RFC's table is the integer part of 2^32 times the absolute value of the sine of i, where the sine and cosine of one are defined by their power series and the others by the addition theorems |
| UnitAngle.SineOfOne | include/rest_rpc/md5.hpp:22-33 | The number between all even and odd partial sums of the sine series at one is known to 36 decimals |
| UnitAngle.CosineOfOne | include/rest_rpc/md5.hpp:22-33 | The same for the cosine |
| Md5Conformance.ConstantsConform | include/rest_rpc/md5.hpp:22-33 | The source's sixty-four constants are that table, in order |
| Md5Conformance.StepIsOperation | include/rest_rpc/md5.hpp:165-177 | A step that rotates all registers is the RFC's in-place operation on the named ones |
| Md5Conformance.StepsAreOperations | include/rest_rpc/md5.hpp:192-194 | Any prefix of the 64 steps is the same prefix of the RFC's operations, up to the register roles |
| Md5Conformance.ProcessMessageConforms | include/rest_rpc/md5.hpp:186-198 | For every message below 2^29 bytes the chaining value is the RFC's |
| Md5Conformance.HashesConform | include/rest_rpc/md5.hpp:218-226 | Hash32 is the first four bytes of the RFC's digest read big-endian; the high and low halves of Hash64 are the first and the second four |
| Md5Conformance.StringHashConforms | include/rest_rpc/md5.hpp:229-231 | The hash of a NUL-terminated string, as a number, from the bytes of the RFC's digest |
| Md5Conformance.UndoAfterStep | include/rest_rpc/md5.hpp:165-177 | Every step can be undone |
| Md5Conformance.StepAfterUndo | include/rest_rpc/md5.hpp:165-177 | Every register state is reached by a step |
| Md5Conformance.StepsPermute | include/rest_rpc/md5.hpp:192-194 | For a fixed block any number of steps permutes the register states |
| Md5.ProcessMessage | include/rest_rpc/md5.hpp:186-198 | The loops compute the chaining value of the specification |
| Md5.ApplySteps | include/rest_rpc/md5.hpp:192-194 | The inner loop computes the 64 steps of the specification |
| Md5.StringLength | include/rest_rpc/md5.hpp:201-211 | The scan returns the length up to the first NUL, cut to 32 bits |
| Streambuf.BasicStreambuf.constructor | thirdparty/asio/asio/basic_streambuf.hpp:131-141 | An empty queue within its maximum size |
| Streambuf.BasicStreambuf.Size | thirdparty/asio/asio/basic_streambuf.hpp:158-161 | The number of unread bytes, never above the maximum |
| Streambuf.BasicStreambuf.Reserve | thirdparty/asio/asio/basic_streambuf.hpp:308-346 | Throws exactly when size() + n exceeds the maximum or the limit of the vector itself; otherwise the unread bytes survive the shift and the reallocation; after a throw they have been shifted and the positions not |
| Streambuf.ContentsAfterFailedReserve | thirdparty/asio/asio/basic_streambuf.hpp:321-340 | After a throw the unread bytes are intact if and only if the shift by the read position changes none of them |
| Streambuf.SurvivesByPosition | thirdparty/asio/asio/basic_streambuf.hpp:321-340 | Said of the positions alone: a throwing reserve leaves every content intact if and only if nothing has been read or the unread bytes fit into the space already read |
| Streambuf.FailedReserveCanCorrupt | thirdparty/asio/asio/basic_streambuf.hpp:321-340 | A concrete buffer whose unread bytes a throwing reserve destroys |
| Streambuf.BasicStreambuf.Prepare | thirdparty/asio/asio/basic_streambuf.hpp:214-219 | Throws exactly when size() + n exceeds the maximum or the limit of the vector; otherwise there is room for n bytes and the contents stay |
| Streambuf.PrepareWithinMaximumThrows | thirdparty/asio/asio/basic_streambuf.hpp:331-335 | A new streambuf of the default maximum size throws for 2^63 bytes, which are within it |
| Streambuf.BasicStreambuf.Commit | thirdparty/asio/asio/basic_streambuf.hpp:233-238 | Appends the prepared bytes, capped by the put area; right exactly below 2^31 bytes because of the 32-bit bump |
| Streambuf.BasicStreambuf.Consume | thirdparty/asio/asio/basic_streambuf.hpp:247-254 | Moves the read position by what the source computes for an address of the buffer, and drops min(n, size()) bytes from the front exactly when that is the count meant |
| Streambuf.ToIntWraps | thirdparty/asio/asio/basic_streambuf.hpp:236-253 | The bumped count is the 32-bit signed number that differs from the count by a multiple of 2^32 |
| Streambuf.ConsumeLimits | thirdparty/asio/asio/basic_streambuf.hpp:251-253 | That is so, if `gptr() + n` does not wrap around, if and only if min(n, size()) is below 2^31; and if it does, if and only if n converted to `int` is size() |
| Streambuf.ConsumeLimitsAnywhere | thirdparty/asio/asio/basic_streambuf.hpp:247-254 | Wherever the buffer lies, if and only if n is at most size() and below 2^31, or above size() and converted to it |
| Streambuf.ConsumeCanUnread | thirdparty/asio/asio/basic_streambuf.hpp:251-253 | For the largest count the read position always goes one back |
| Streambuf.ConsumeGrowsBeyondMaximum | thirdparty/asio/asio/basic_streambuf.hpp:247-254 | A concrete streambuf whose size() that makes larger than its maximum |
| Streambuf.BasicStreambuf.Underflow | thirdparty/asio/asio/basic_streambuf.hpp:263-274 | The first unread byte or end of file, with everything written made readable |
| Streambuf.BasicStreambuf.Overflow | thirdparty/asio/asio/basic_streambuf.hpp:283-306 | Throws exactly when a byte meets a full put area with size() at the maximum or with the vector unable to hold up to 128 bytes more; otherwise appends it |
| Streambuf.BasicStreambuf.Put | thirdparty/asio/asio/basic_streambuf.hpp:283-306 | Appends one byte; throws exactly where overflow does |
| Streambuf.BasicStreambuf.Get | thirdparty/asio/asio/basic_streambuf.hpp:263-274 | Takes the first unread byte, or end of file |

## Left out

- SSL and handshake paths, sockets, DNS and ZooKeeper, signals, thread start and join, the io_service pool and configuration parsing.
- Real time: a timer is a step that may happen; waiting on futures and on the connection is not modelled.
- MessagePack beyond the strings and short tuples the protocol itself builds: handler arguments and results are bytes, and what a handler does with them is a value of type `Run`. Decoders accept the array forms this code sends, not every form the library would.
- Handlers that throw something other than a `std::exception`, and handlers that answer more than once.
- An asynchronous handler is taken to read the request id while it runs, as `request_id()` then still belongs to its frame; one that reads it later may see another frame's.
- Client behaviour after the first connection failure: reconnecting, and the outbox front left behind by a failed write.
- RpcSystem: fewer than 2^63 future calls are made, and no callback is still waiting when its id comes round again. A handler, once its completion has been delivered, is one step, so a close by one of the client's own handlers is one step; the three sections of a close by the program are three. After the program has closed the connection the bytes of a cleared write are no longer followed.
- Refinement, ReplyRefinement, ClientActions: the two directions are linked one at a time; the client class closes in one method, so a close is matched with the system's three steps only when nothing happens between them.
- Completion.ec: the source gives a promise the data alone; the error code recorded for a future says why it was set.
- Broadcast.PublishIsSteps: the deliveries of one call of `publish` to one connection are consecutive steps of its system; steps of that connection between them are not considered.
- Streambuf.BasicStreambuf.constructor: the first 128 bytes, or fewer, are taken to be within the limit of the vector. Memory exhaustion is not modelled.
- Outbox: byte contents of the wire are described until `clear_cache` first runs; afterwards two writes may share the header member, and only the queue, the count of writes and the buffers are described.
- `rpc_client`'s members under the write mutex are a class of their own (Outbox), held by the client class.
- The iteration order of the unordered containers: loops visit entries in an arbitrary order, and the multimap is a sequence with new entries at its end.
- The overflow of the 64-bit connection counter after 2^63 accepts.
- SineTable.ConstantsAreSines: the sines of 2 to 64 are what the addition theorems give from those of one; the theorems themselves are not derived from the series.
- `temp_req_id_`, `remote_adress`, user data and the accessors of `connection`.
- Template dispatch in `meta_util.hpp` and `cplusplus_14.h`, `nonstd_any.hpp`, `string_view.hpp`, the rest of asio, examples and tests.
