# A verified model of the publish/subscribe middleware

Four layers of the middleware are modelled, each as the state it keeps and the statements that change it, and each with
the property the next layer rests on.

- **RPC connections** (`RpcProtocol`, `RpcSafety`, `RpcClosing`, `RpcProgress`, `RpcRequests`, `RpcCallbacks`, `RpcAlone`,
  `RpcSocket`). Two endpoints, each with a
  thread that opens the connection and runs the receive cycle, a thread that calls `close()`, and any number of threads
  that send. A step is one statement another thread can observe, so a schedule is an arbitrary interleaving. The class
  `BsonRPCSocket` performs the same statements on its fields; `Execute` shows that two such objects driven through any
  schedule are where the state machine is, so the theorems about reached states speak of the objects.
- **The Mediator** (`MediatorTables`, `Mediators`, `MediatorRuns`, `MediatorCallbacks`, `TwoSections`, `Matchmaking`,
  `ConnectionSources`, `Departures`). The topic table and the
  node table are inverse indexes of one publish/subscribe relation. With atomic operations they refine it in every run;
  with the two locked sections of `addPublisher` and `addSubscriber` interleaved, exactly one of the two sees the other.
  `MediatorCallbacks` puts the Mediator on top of the RPC state machine: what each connection's receive cycle can call, in
  whatever way the connections interleave, never finds an entry missing.
  `Matchmaking` adds the nodes and their channels, so that the claim is about connections and not only about tables;
  `ConnectionSources` has the converse, that nobody is connected to another topic's publisher.
- **Framing** (`Framing`, `BsonSockets`). The sending loops, the receiving loops and the store of bytes between them.
- **Publishers, subscribers and the node** (`Publishers`, `SubscriberQueue`, `SubscriberProofs`, `Subscribers`, `Nodes`,
  `NodeShutdown`). Fan-out, the bounded queue with its two threads and its destructor, and `Node::disconnect` called from
  two threads at once on top of the RPC state machine.

A run is a list of events; an event that the code would not let happen yet is skipped, so a statement about all lists is
one about all runs. The methods of `BsonRPCSocket` and `Subscriber` are proved equal to the steps of their state machines,
and `Execute` in either module drives the objects through any run. The methods of `BsonSocket`, of `Node` and, for its two
tables, of `Mediator` are proved equal to the functions the theorems are about. `Publisher`, and what the `Mediator` sends,
have contracts of their own: there the runs of `SubscriberQueue` and `Matchmaking` model the same step a second time.

## What the code does differently from its documentation

- `bson_rpc_socket.hpp` promises a closing routine that loses no message. A request or a response is handled, once the
  peer closes, if and only if `is_connected_` was true when its sender took `sending_lock_` (`RequestHandledIff`).
  `sendRequest` does not look at `is_connected_`, so later ones are still written, and are lost: a request issued after the
  own closing message (`LateRequestLost`), and the response to a request that was issued in time, when the handling side
  has closed before it answers (`ResponseLost`).
- The sending loops advance by the result of the last `send()`, not by the sum. They are right for every message of a
  given length exactly when they need at most two calls (`SendExactIff`).
- `receiveMessage` narrows the length to `int` before it erases the message from its store. A frame comes back and the
  stream goes on behind it exactly for lengths below 2^31 (`FrameRoundTrip`).
- When all of `addSubscriber` runs between the two sections of `addPublisher`, it answers with a default address and
  nobody ever tells the subscriber the real one. In every other order it is told (`ToldUnlessNested`, `NestedHappens`).
- The queue holds up to `queue_size_` + 2 messages, or one where the 32-bit sum `queue_size_` + 1 wraps to zero
  (`NewestKept`).
- `Node::disconnect` reaches every subscriber registered before it goes through `subscribers_`, and no other. If the
  Mediator stops between `connectToServer` and the store to `connected_` in the node's constructor, the closing callback
  finds nothing to do and only ctrl+C or the node's destructor will disconnect the subscribers (`CallbackTooEarly`).
  `createSubscriber` does not look at `connected_`, so a subscriber made after the walk stays connected
  (`SubscriberTooLate`). `DisconnectedIff` is the exact condition.
- `createPublisher` moves the topic name into the publisher and then uses it as the key in `publishers_`, so what that
  container holds, and which publishers `disconnect` reaches, is not determined by the topics. No statement here rests on
  it: in `Matchmaking` any of the publishers of a closing node may stop listening.

## Model

| member | source | states |
|---|---|---|
| RpcClosing.ZeroMessageLoss | src/socket/bson_rpc_socket/bson_rpc_socket.cpp:9-108 | in every interleaving the requests an endpoint has handled are an ordered prefix of those its peer issued before its closing message, and all of them once the receive cycle takes its closing branch |
| RpcClosing.HandledPrefix | src/socket/bson_rpc_socket/bson_rpc_socket.cpp:69-108 | the same for any pair of endpoints that satisfies the invariant |
| RpcClosing.ClosesOnce | src/socket/bson_rpc_socket/bson_rpc_socket.cpp:10-17 | at most one closing message per direction and one run of the closing callback, exactly one of each when the receive cycle has ended; a `close()` that lost the lock to the receiving thread finds the descriptor closed at its send |
| RpcClosing.CloseReturnsLast | src/socket/bson_rpc_socket/bson_rpc_socket.cpp:16-17 | a `close()` that waited returns only after its own closing callback and after everything the peer issued before closing was handled; and, if no `close()` of the peer cleared its connection, after the peer handled every earlier request |
| RpcClosing.DescriptorsCloseInOrder | src/socket/bson_rpc_socket/bson_rpc_socket.cpp:80-87 | a descriptor is closed only with both closing messages sent and the peer's taken, so the receive cycle never reads the end of the stream and no request before the own closing message fails |
| RpcClosing.OpeningSeparates | src/socket/bson_rpc_socket/connection_bson_rpc_socket.cpp:12-21 | handshake reads take only handshake messages and receive cycles none; the connecting callback has finished before `connectToServer` returns and before the server starts its receive cycle, in which all its other callbacks run |
| RpcClosing.CallbackNeverWaits | src/socket/bson_rpc_socket/bson_rpc_socket.cpp:81-94 | a `close()` called by the closing callback finds the endpoint disconnected and does not wait for its own thread |
| RpcClosing.CloseSkipsIff | src/socket/bson_rpc_socket/bson_rpc_socket.cpp:10-10 | a first `close()` returns at once if and only if the receive cycle has already cleared the connection; any other goes on to its wait |
| RpcCallbacks.CallbacksInOrder | src/socket/bson_rpc_socket/bson_rpc_socket.cpp:69-108 | in every run the server's callbacks are a prefix of the connecting callback, the handled requests in order, and the closing callback once; the client's are the same without the first |
| RpcSafety.ActKeeps | src/socket/bson_rpc_socket/bson_rpc_socket.cpp:9-108 | every statement of every thread of either endpoint keeps the invariant of the pair |
| RpcSafety.InvAlways | src/socket/bson_rpc_socket/bson_rpc_socket.cpp:9-108 | so does every schedule |
| RpcProgress.ActDecreases | src/socket/bson_rpc_socket/bson_rpc_socket.cpp:9-128 | every step but a new request makes a measure over channels and thread positions smaller |
| RpcProgress.NoDeadlock | src/socket/bson_rpc_socket/bson_rpc_socket.cpp:9-108 | with a closing message on the wire, threads that can all do nothing have finished: both receive cycles ended and no `close()` waits |
| RpcProgress.ClosingTerminates | src/socket/bson_rpc_socket/bson_rpc_socket.cpp:9-108 | after any prefix with a closing message on the wire every run without new requests is bounded, and one that cannot go on has closed both sides and released every `close()` |
| RpcProgress.ClosingCompletes | src/socket/bson_rpc_socket/bson_rpc_socket.cpp:9-108 | and such a run to the end exists from every such state |
| RpcRequests.GuardIsHistory | src/socket/bson_rpc_socket/bson_rpc_socket.cpp:9-14 | under `sending_lock_`, `is_connected_` is true exactly as long as the own closing message is not on the wire |
| RpcRequests.RequestHandledIff | src/socket/bson_rpc_socket/bson_rpc_socket.cpp:23-45 | a request or response is handled, right behind what was issued before it, once the peer takes its closing branch, if and only if `is_connected_` was true when its sender took the lock |
| RpcRequests.ResponseHandled | src/socket/bson_rpc_socket/bson_rpc_socket.cpp:119-128 | whatever happens between the return of a full duplex callback and the send, what is sent is the callback's result under the response name the request gave; the peer handles it, right behind what was issued before, if and only if the sender was connected under the lock |
| RpcRequests.NothingToRespond | src/socket/bson_rpc_socket/bson_rpc_socket.cpp:110-117 | after a plain request, or without a callback, nothing is sent and the receive cycle is back at its read |
| RpcRequests.ClosedIsSilent | src/socket/bson_socket/bson_socket.cpp:26-36 | an endpoint whose descriptor is closed, or that sees its peer's closed, puts nothing on the wire |
| RpcRequests.OpenSends | src/socket/bson_socket/bson_socket.cpp:37-62 | otherwise a request or response is on the wire and in the peer's channel |
| RpcRequests.LateRequestLost | src/socket/bson_rpc_socket/bson_rpc_socket.cpp:23-31 | for every request there is a run in which, issued after the own closing message, it is written, both sides close, and it is never handled |
| RpcRequests.ResponseLost | src/socket/bson_rpc_socket/bson_rpc_socket.cpp:119-128 | for every full duplex request and result there is a run in which the request is issued in time and handled, and the response is written and never handled |
| RpcAlone.ThreadsKeep | src/socket/bson_rpc_socket/bson_rpc_socket.cpp:9-108 | lock, flags and positions of the two threads of an endpoint fit together after every statement, whatever the peer does |
| RpcAlone.FinishesAlone | src/socket/bson_rpc_socket/bson_rpc_socket.cpp:72-80 | a client whose peer has dropped its socket comes to a halt only with its receive cycle ended and no `close()` waiting |
| RpcSocket.Execute | src/socket/bson_rpc_socket/bson_rpc_socket.cpp:9-137 | two socket objects driven through any schedule end exactly where the state machine does |
| RpcSocket.BsonRPCSocket.Perform | src/socket/bson_rpc_socket/bson_rpc_socket.cpp:69-128 | each statement changes the fields and the two channels as the state machine's step, and nothing else |
| RpcSocket.BsonRPCSocket.ContinueClose | src/socket/bson_rpc_socket/bson_rpc_socket.cpp:9-19 | the statements of `close()` past its check |
| RpcSocket.BsonRPCSocket.Shutdown | src/socket/bson_rpc_socket/bson_rpc_socket.cpp:80-100 | the statements of the closing branch of the receive cycle |
| RpcSocket.BsonRPCSocket.Receive | src/socket/bson_rpc_socket/bson_rpc_socket.cpp:71-106 | the next message, or the end of the stream, decides which branch the receive cycle takes |
| RpcSocket.BsonRPCSocket.Connect | src/socket/bson_rpc_socket/client_bson_rpc_socket.cpp:12-34 | the statements of `connectToServer`, and of `startConnection` on the server's side |
| RpcSocket.BsonRPCSocket.SendRequest | src/socket/bson_rpc_socket/bson_rpc_socket.cpp:23-45 | the request goes on the wire unless the send throws, which is swallowed |
| RpcSocket.BsonRPCSocket.SendMessage | src/socket/bson_socket/bson_socket.cpp:25-36 | the send throws on a closed socket and when the poll reports a peer that has closed, and otherwise appends to the peer's channel |
| MediatorRuns.EveryRunIsSafe | src/mediator/mediator.cpp:36-79 | in every run of atomic operations the tables index the relation that plain set updates give, and no operation looks up a missing node, a missing address or a null connection |
| MediatorRuns.TablesRefineRelation | src/mediator/mediator.cpp:95-214 | the same from any state that satisfies the invariant |
| MediatorRuns.ClosedIsForgotten | src/mediator/mediator.cpp:160-184 | after a closing callback no table mentions the node, and only a new connection could bring it back |
| MediatorRuns.NameLasts | src/mediator/mediator.cpp:95-101 | in every run the name a node gives when it connects is the one in its entry until its connection closes |
| MediatorCallbacks.ConnectionsAreSafe | src/mediator/mediator.cpp:36-79 | for every interleaving of what the connections' receive cycles call, through the registered callbacks, each operation comes in turn and finds every node, address and connection it uses |
| MediatorCallbacks.NothingAfterClosing | src/mediator/mediator.cpp:76-76 | in such an interleaving no operation of a connection follows its `removeNode`, which is therefore called once |
| MediatorCallbacks.LifeInOrder | src/mediator/mediator.cpp:40-79 | whatever schedule a connection runs, its operations are accepted, `addNode`, requests, `removeNode` last |
| MediatorCallbacks.AskedIsDone | src/mediator/mediator.cpp:47-73 | the names agree: for every request a node sends, under the name it sends it, the callback registered under that name calls one operation, which changes the relation and the tables as that request is meant to |
| MediatorCallbacks.ToldIsHeard | src/mros/node.cpp:11-14 | what the Mediator tells a node, in a request or in the response to `addSubscriber`, reaches the node's callback as it was told |
| MediatorTables.RelationUnique | src/mediator/mediator.cpp:95-214 | tables index at most one relation |
| MediatorTables.AddPublisherRefines | src/mediator/mediator.cpp:103-131 | adding a publisher is one update of the relation |
| MediatorTables.AddSubscriberRefines | src/mediator/mediator.cpp:133-158 | adding a subscriber is one update of the relation, although its lookups may insert entries |
| MediatorTables.AddSubscriberFinds | src/mediator/mediator.cpp:137-152 | the snapshot holds exactly the publishers of the topic and the lookups find their addresses |
| MediatorTables.RemovePublisherRefines | src/mediator/mediator.cpp:186-199 | removing a publisher takes one pair out of the relation |
| MediatorTables.RemoveSubscriberRefines | src/mediator/mediator.cpp:201-214 | removing a subscriber takes one pair out of the relation |
| MediatorTables.RemoveNodeRefines | src/mediator/mediator.cpp:160-184 | although only the node's own entries are walked, no topic mentions the node afterwards and the relation loses exactly its pairs |
| Mediators.Mediator.AddPublisher | src/mediator/mediator.cpp:103-131 | both tables change as specified and exactly the subscribed nodes are sent the new address, once each |
| Mediators.Mediator.AddSubscriber | src/mediator/mediator.cpp:133-158 | both tables change as specified and the response lists exactly the addresses published on the topic |
| Mediators.Mediator.RemoveNode | src/mediator/mediator.cpp:160-184 | the two walks and the erasure leave neither table with a mention of the node |
| Mediators.Mediator.RemovePublisher | src/mediator/mediator.cpp:186-199 | both tables and the relation lose the pair; nothing is sent |
| Mediators.Mediator.RemoveSubscriber | src/mediator/mediator.cpp:201-214 | both tables and the relation lose the pair; nothing is sent |
| Mediators.Mediator.Accept | src/mediator/mediator.cpp:36-38 | the node gets an entry with a connection and the relation stays |
| Mediators.Mediator.HandleConnection | src/mediator/mediator.cpp:36-79 | the entry is made before the connection starts, so `addNode`, which requires it, finds it |
| Mediators.Mediator.AddNode | src/mediator/mediator.cpp:95-101 | the name is stored and the relation stays |
| Mediators.BothWalks | src/mediator/mediator.cpp:166-174 | the two walks over the node's entries, one after the other, are the removal of the node from the topic table |
| TwoSections.ExactlyOneSeesTheOther | src/mediator/mediator.cpp:107-141 | over every interleaving of the sections exactly one of a publisher's and a subscriber's snapshots contains the other |
| TwoSections.IdleNodesAgree | src/mediator/mediator.cpp:103-158 | both indexes agree about every node with no operation between its sections |
| TwoSections.ToldUnlessNested | src/mediator/mediator.cpp:114-152 | when both operations are complete the subscriber has been told the publisher's address if and only if `addSubscriber` did not run wholly between the sections of `addPublisher` |
| TwoSections.NestedHappens | src/mediator/mediator.cpp:149-149 | a run in which it did, and the subscriber is never told |
| TwoSections.StepKeeps | src/mediator/mediator.cpp:103-158 | every section keeps the invariant of all pairs |
| Matchmaking.NobodyIsMissed | src/mediator/mediator.cpp:103-158 | in every run a live registered publisher is connected to, or on its way in a notice or response to, every live registered subscriber of the topic with no removal under way |
| Matchmaking.DrainedIsConnected | include/mros/node.hpp:116-158 | when the channels of two nodes are empty and neither is between registering and requesting, the live subscriber of the one is connected to the live publisher of the other |
| Matchmaking.ToldOnlyWhenAsked | src/mediator/mediator.cpp:119-157 | the Mediator tells a node of a topic only after it has handled an `addSubscriber` of the node for that topic |
| Matchmaking.NothingBeforeSubscribing | src/mediator/mediator.cpp:119-157 | until a node's first `addSubscriber` is handled the Mediator has sent it no request and no response |
| ConnectionSources.OnlyItsTopic | src/mediator/mediator.cpp:119-157 | in every run each address a node is told, is about to be told, or is connected to for a topic was announced for that topic, and a live publisher there is one on that topic |
| ConnectionSources.SubscribingTells | src/mediator/mediator.cpp:137-157 | the response to `addSubscriber` holds exactly the addresses published on the topic, and nobody else is told anything |
| ConnectionSources.PublishingTells | src/mediator/mediator.cpp:119-128 | exactly the registered subscribers of the topic are told of a new publisher, of its address and no other |
| ConnectionSources.RemovalTellsNobody | src/mediator/mediator.cpp:160-214 | removals tell nobody anything |
| Departures.DepartedIsForgotten | src/mediator/mediator.cpp:160-184 | when the Mediator has handled everything a departed node sent, no table mentions the node |
| Matchmaking.HandleAddPub | src/mediator/mediator.cpp:119-128 | a new publisher's address is put on the way to every registered subscriber |
| Matchmaking.HandleAddSub | src/mediator/mediator.cpp:143-157 | a new subscriber's response holds the address of every registered publisher |
| Matchmaking.StepKeeps | src/mros/node.cpp:59-95 | every step of a node, the Mediator or a channel keeps the matchmaking invariant |
| Nodes.Node.SendRequest | include/mros/node.hpp:124-131 | when a request is sent the publisher listens or the subscriber is in the container, or, for a removal, not any more: its precondition is the order; after the own closing message the request is lost |
| Nodes.Node.RegisterPublisher | include/mros/node.hpp:121-127 | the publisher listens and the Mediator is not yet told |
| Nodes.Node.AnnouncePublisher | include/mros/node.hpp:130-131 | a publisher that listens is announced under its address |
| Nodes.Node.CreatePublisher | include/mros/node.hpp:116-135 | the two steps of the matchmaking runs, registration and then request |
| Nodes.Node.RegisterSubscriber | include/mros/node.hpp:144-150 | the subscriber is in the container and the Mediator not yet asked |
| Nodes.Node.AnnounceSubscriber | include/mros/node.hpp:153-154 | a registered subscriber is announced |
| Nodes.Node.CreateSubscriber | include/mros/node.hpp:139-158 | the two steps of the matchmaking runs, registration and then request |
| Nodes.Node.ConnectSubscriberToPublishers | src/mros/node.cpp:59-69 | the live subscriber on the topic gains exactly the addresses somebody listens on; without one nothing changes |
| Nodes.Node.HandleNotice | src/mros/node.cpp:71-77 | taking a notice from the channel is the step of the matchmaking runs, whether or not the node is closing |
| Nodes.Node.RemoveSubscriberByTopic | src/mros/node.cpp:79-86 | the two steps of the matchmaking runs: the entry goes and then the Mediator is told |
| Nodes.Node.RemovePublisherByTopic | src/mros/node.cpp:92-94 | the Mediator is told of a publisher that no longer listens |
| Nodes.Node.DestroyPublisher | include/mros/publisher.hpp:80-91 | the two steps of the matchmaking runs: the publisher stops listening and then the Mediator is told |
| Nodes.Node.DisconnectSubscribers | src/mros/node.cpp:114-118 | every live subscriber is told to disconnect, which is the walk of the shutdown runs |
| NodeShutdown.ShutdownCompletes | src/mros/node.cpp:97-123 | from every interleaving of a ctrl+C `disconnect`, the end of the connection from either side, a Mediator that drops its socket, and users who make and destroy subscribers the threads can reach the end; if ctrl+C was hit every live subscriber registered while the node was connected is disconnected |
| NodeShutdown.StuckIsQuiescent | src/mros/node.cpp:97-123 | and a run in which no thread of the node or of the connection can go on is at that end |
| NodeShutdown.QuietIsBounded | src/mros/node.cpp:97-123 | every run of the shutdown in which the user does nothing new is bounded |
| NodeShutdown.CallbackNeverCloses | src/mros/node.cpp:104-104 | `disconnect` as the closing callback never calls `close()`, which would wait for its own thread |
| NodeShutdown.DisconnectDone | src/mros/node.cpp:97-123 | at every moment the disconnected live subscribers are exactly those registered before the last walk of a `disconnect` over `subscribers_`; a `disconnect` that ended has walked, or found the work taken over |
| NodeShutdown.DisconnectedIff | src/mros/node.cpp:97-123 | at rest a live subscriber is disconnected if and only if it was registered before the last walk; there was a walk if and only if ctrl+C was hit or the closing callback did not come before the constructor's store; it covers all subscribers registered while the node was connected |
| NodeShutdown.CallbackTooEarly | src/mros/node.cpp:20-24 | a run to rest in which the Mediator drops its socket, the callback comes too early, and a subscriber made while `connected_` is true is left connected |
| NodeShutdown.SubscriberTooLate | include/mros/node.hpp:139-158 | a run to rest in which a subscriber made after the walk of a ctrl+C `disconnect` is left connected |
| NodeShutdown.GoneKeeps | src/mediator/mediator.cpp:84-91 | a Mediator that drops its socket at any moment after the opening keeps the invariant of the shutdown |
| Framing.FrameRoundTrip | src/socket/bson_socket/bson_socket.cpp:81-101 | a frame comes back as its message with the stream behind it if and only if its length fits an `int` |
| Framing.OversizedFrame | src/socket/bson_socket/bson_socket.cpp:97-101 | what happens instead: from 2^31 to 2^32 the erased range is none, and a little beyond the message comes back but too little is erased |
| Framing.TruncatedFrame | src/socket/bson_socket/bson_socket.cpp:71-95 | a stream that ends anywhere inside a frame gives the end of the stream and no message |
| Framing.FrameLayout | src/socket/bson_socket/bson_socket.cpp:39-47 | on the wire are eight bytes of length, the least significant first, and then the message |
| Framing.SendExactIff | src/socket/bson_socket/bson_socket.cpp:40-61 | on a list of `send()` results the loop emits every message of the length unharmed if and only if it makes at most two calls |
| Framing.TwoCallsExact | src/socket/bson_socket/bson_socket.cpp:40-61 | with at most two calls the loop as written equals the loop with a running total, and both emit the data |
| Framing.CumulativeExact | src/socket/bson_socket/bson_socket.cpp:53-61 | the loop with a running total emits the data whenever it ends |
| Framing.EmittedLength | src/socket/bson_socket/bson_socket.cpp:43-60 | however the loop as written ends, it has emitted as many bytes as its calls took |
| Framing.TwoCallsPrefix | src/socket/bson_socket/bson_socket.cpp:43-60 | up to its second call these are the first bytes of the data, also when it ends in an error |
| Framing.ThirdCallGarbles | src/socket/bson_socket/bson_socket.cpp:53-61 | for every list of results that needs a third call there is a message that is garbled |
| BsonSockets.BsonSocket.SendLoop | src/socket/bson_socket/bson_socket.cpp:40-61 | the loop on its variables appends to the channel what the specification says, and fails where it does |
| BsonSockets.BsonSocket.SendMessage | src/socket/bson_socket/bson_socket.cpp:25-62 | nothing is sent on a closed socket or to a closed peer; otherwise header and then body, which is exactly the frame when each needs at most two calls |
| BsonSockets.BsonSocket.Fill | src/socket/bson_socket/bson_socket.cpp:86-95 | the receiving loop loses and reorders nothing, ends, and reads at most three bytes too many |
| BsonSockets.BsonSocket.ReceiveMessage | src/socket/bson_socket/bson_socket.cpp:64-102 | the outcome depends only on the bytes stored and to come, however they are cut; at most three bytes stay behind |
| BsonSockets.ReceiveAll | src/socket/bson_socket/bson_socket.cpp:64-102 | from the stream of any messages, cut off anywhere inside a further one, repeated receives return exactly these, in order, and then the end |
| BsonSockets.Exchange | src/socket/bson_socket/bson_socket.cpp:25-102 | sender to receiver: any list of messages arrives as it was sent |
| SubscriberProofs.NewestKept | include/mros/subscriber.hpp:190-199 | apart from the dummy the queue is a suffix of everything received, within the bound; a push drops at most one message, and only when at least as many newer ones as the bound have come |
| SubscriberProofs.DeliveredInOrder | include/mros/subscriber.hpp:172-243 | every message the callback gets was published by its publisher after the connection was accepted and before it was erased, and those of one publisher come in the order published, none twice |
| SubscriberProofs.TakenIsDelivered | include/mros/subscriber.hpp:226-242 | while the subscriber is connected every message that has left the queue went to the callback, was dropped by a push, or has just been taken; and the spinning thread has not stopped |
| SubscriberProofs.SpinsToCallback | include/mros/subscriber.hpp:226-242 | and a message in the queue brings the thread to the callback within five of its steps |
| SubscriberProofs.NothingSkipped | include/mros/publisher.hpp:108-150 | every message published on an accepted connection has been received or is still in its stream |
| SubscriberProofs.CallbackGetsMessages | include/mros/subscriber.hpp:236-241 | the callback runs on the last message taken and never on the dummy |
| SubscriberProofs.NoLostWakeup | include/mros/subscriber.hpp:198-233 | a spinning thread that waits with a message in the queue has been notified, although pushes notify only at size one |
| SubscriberProofs.AtMostOneMore | include/mros/subscriber.hpp:97-115 | after `connected_` is cleared the spinning thread takes at most one more entry |
| SubscriberProofs.ShutdownDecreases | include/mros/subscriber.hpp:97-115 | every step of the three threads in shutdown, but a receive of the pass under way, makes a measure smaller |
| SubscriberProofs.ShutdownGoesOn | include/mros/subscriber.hpp:97-115 | until the destructor has returned one of them can go on |
| SubscriberProofs.DestructorReturns | include/mros/subscriber.hpp:97-115 | from every reachable state in the destructor it returns within the measure, with the spinning thread ended |
| Subscribers.Subscriber.Push | include/mros/subscriber.hpp:190-199 | the drop loop and the push leave the newest messages and notify if and only if the queue was empty |
| Subscribers.Subscriber.Spin | include/mros/subscriber.hpp:224-243 | each statement of the spinning thread, and where it blocks |
| Subscribers.Subscriber.ReleaseSpinner | include/mros/subscriber.hpp:103-115 | the dummy goes behind the queue and the waiting thread is notified |
| Subscribers.Subscriber.Destroy | include/mros/subscriber.hpp:97-115 | the destructor returns with both threads ended, whatever they were at |
| Subscribers.Execute | include/mros/subscriber.hpp:97-243 | an object driven through any run is exactly where the state machine is |
| Publishers.Publisher.Publish | include/mros/publisher.hpp:108-127 | every connection that can send gets the message, the others are erased, the order stays, and each held connection has been sent exactly what was published since it was accepted |
| Publishers.Publisher.Accept | include/mros/publisher.hpp:131-142 | a new connection starts with the next message published |
| Publishers.Publisher.Shutdown | include/mros/publisher.hpp:143-150 | the acceptor is closed, every connection is closed, and none is left to send on |
| Publishers.WithoutMembers | include/mros/publisher.hpp:116-125 | erasing failed connections removes exactly these, and nothing when none failed |
| Publishers.WithoutDistinct | include/mros/publisher.hpp:116-125 | and keeps the rest distinct |

## Assumptions

- Channels between endpoints are unbounded, reliable and first in, first out; the framing layer is what makes a byte
  stream such a channel. The host is little-endian and `size_t` has 64 bits.
- User threads call `close()` and `sendRequest` on an endpoint only once it has opened its connection. For the Mediator's
  requests `NothingBeforeSubscribing` is the proof; its `close()` comes only from the closing callback, and
  `NodeShutdown` has it so. A descriptor is closed by the protocol only, except that in `NodeShutdown` the Mediator may drop
  its socket at any moment after the opening; what it has sent by then can still be read.
- `disconnect` goes through `subscribers_` in one step: inserting at the same time would be a race on the map. The
  publishers are not part of it.
- One thread per endpoint calls `close()`. Callbacks terminate, and a request callback does not call `close()`.
- A node has at most one live publisher and one live subscriber per topic, and makes a new one only after the Mediator has
  been told of the end of the old one. Publisher addresses and connection URIs are not used again.
- A request callback name nobody registered, and a registered one, differ only in whether a response is sent; this is the
  `result` of a step and left open.
- In `Matchmaking` a request sent after the closing message is lost, and the closing message is the last thing the Mediator
  handles for a node. These are rules of its channels; `RequestHandledIff` and `CallbacksInOrder` prove them of the RPC
  connection.
- Each node has one connection in a run of the Mediator. The arguments of requests are strings, and reading one gives what
  was written into it.
- Where a method of the Mediator requires the node to be in the table, `ConnectionsAreSafe` is the proof that it is.

## Left out

- The encoding of JSON values as BSON and back: messages are opaque values or byte strings.
- Operating-system sockets, connect timeouts, resets and a `recv()` result of -1, which the code appends before it checks it.
- More than one thread in `close()` of one endpoint, and `close()` inside a request callback, which would wait for itself.
- The tables of request callbacks as fields of the RPC socket: there a request runs some callback, once and in order. What the Mediator registers is the function `Operation` of `MediatorCallbacks`.
- Interleaved sections of removals with additions in the Mediator, where the tables do not stay inverse indexes and lookups can insert entries for gone nodes; removals are atomic.
- The read of `node_table_` in `removeNode` under the lock of the other table.
- The clearing of the Mediator's tables when it stops, a stop or an exception during `startConnection`, and the superseded `mediator_old.cpp`.
- `publishers_` and its keys, and the loop of `disconnect` over it; the publishers that listen are modelled by topic.
- `Node::spin`, whose condition is changed without its lock, and `Node`'s destructor, which is one more call of `disconnect`.
- `Subscriber::spinOnce`, which calls the callback with a default message when the queue is empty.
- A receiving thread blocked in a receive while the destructor joins it; in the model it comes back to its loop head.
- SubscriberProofs.ShutdownDecreases: does not count the receives of the pass under way, which are as many as the pass has connections, because a pass is not kept in the model.
- The order in which one receive cycle visits its connections: any order is allowed, which includes the map's.
- `publisher_connections_` as a field of the class: in the class `Subscriber` connections are not kept; `Matchmaking` and `Nodes` keep them as sets of addresses.
- Detached threads, destructors of sockets and memory lifetimes; logging, signal handling and the socket classes below `BsonSocket`.
- SubscriberProofs.DeliveredInOrder: order and absence of duplicates only; which messages arrive depends on drops, and `NothingSkipped` and `NewestKept` say what becomes of each.
- BsonSockets.Exchange: speaks of lengths below 2^31 and of at most two `send()` calls each for header and body, outside of which the code does not keep it.
