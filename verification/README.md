# A verified model of a publish/subscribe protocol with a central broker

Nodes register themselves, their message types, topics, publishers and
subscribers at a broker through blocking remote calls over UDP. Afterwards a
node sends data packets to the broker, which forwards each to the subscribers
of its topic. This project models the broker, the node, the scheduler of a
node (`spin_once`, `spin_while_work`), the message queue with its buffer pool,
the packet layout, and the whole system of one broker, any number of nodes and
a lossy datagram network, and proves what every run keeps.

Verify the project with `dafny verify dfyconfig.toml`.

## Layers

| files | content |
|---|---|
| `Basics`, `Codec`, `Counter` | 32-bit wrap-around, packet layout, the broker's per-client packet counter |
| `MessageQueue`, `Endpoints` | buffer pool with free list and FIFO, publishers and subscribers, as classes |
| `BrokerModel`, `BrokerProofs`, `Broker` | the broker as a function of the received packet, its invariants, and the broker as a class that refines the function |
| `NodeModel`, `SchedulerProofs`, `DrainProofs`, `Node`, `Relabelling` | indexes and scheduler of a node, their properties over whole runs, the node as a class that refines them, and why the scheduler does the same on payloads as on payloads with their origin |
| `System`, `Dialling`, `SystemCounters`, `SystemRpc`, `SystemViews`, `SystemData`, `SystemDelivery`, `SystemSubscriptions` | the protocol as a state machine, `connect` as its sequence of calls, and one file per layer of the inductive invariant |
| `Theorems`, `SpinPaths`, `Progress` | results about every run; `spin_once` as a path of protocol steps; what the protocol can always do next |
| `Sessions`, `ConnectRuns`, `Declarations`, `Connecting` | a whole `connect` as a path of protocol steps, every run of a connecting node as a `connect`, and exactly when an undisturbed `connect` succeeds |

In `System`, a packet to the broker may arrive at any time after it was sent,
any number of times, or never. A packet to a node may be lost or overtaken but
arrives at most once, since nodes do not filter duplicates. Every node starts
from an arbitrary counter and has an address of its own. The attempts `sent` of
a node are at the same time what may still arrive at the broker. Otherwise no
step reads histories (`published`, `handed`, `accepted`, origins of messages);
they only make it possible to state what happened. `Bounded` says that fewer than
2^32 packets were sent from each address and that IDs fit their 32-bit fields;
`Counter.PrefixOnlyIff` shows that this bound on packets is exact.

## What the code does differently from what one might expect

- `register_topic` of the broker reports an unknown message type but goes on and
  reads the type table at that position when it creates the topic or finds the
  topic under another type (src/broker.cpp:236-261). `BrokerModel.Defined` says
  for exactly which requests that does not happen, and is a precondition of the
  broker's methods; `Theorems.BrokerStaysInRange` proves that no packet of any
  run violates it.
- The length check for data packets adds the size of the control header
  (src/broker_protocol.cpp:77), so it lets through packets that miss up to eight
  payload bytes. `Codec.TruncatedDataAccepted` gives the exact set, with a
  concrete packet in `Codec.TruncatedDataExample`.
- A blocking call never compares the RPC ID of the response
  (src/node.cpp:301-319). `Theorems.RpcPairing` proves that the response is the right one all the same.
- A receiving node checks neither message type nor size (src/node.cpp:427-434).
  `Theorems.EndToEndIntegrity` proves that both agree.
- Running a callback does not count as work, and neither does a packet for which
  there is no subscriber. `spin_while_work` can therefore return true while
  packets are still waiting; `DrainProofs.BacklogConsumedIff` says exactly when.
- A publisher keeps the priority it was created with (src/node.cpp:142-143), so a
  don't-care publisher is visited under priority -101, after all publishers and
  subscribers of higher priority, whatever the topic's priority.
- The broker forwards packets as they come. That higher priorities are handled
  first in the broker too, as the repository's README announces, is not implemented.

## Model

| member | source | states |
|---|---|---|
| `Theorems.EndToEndIntegrity` | src/node.cpp:392-437 | in every run, each payload given to a callback is byte for byte one that `publish` accepted on a publisher with the same topic name, type name and size, and comes from the send attempt of that very message, whatever stale bytes the receive buffer holds |
| `Theorems.EndToEndOrder` | src/broker.cpp:100-107 | if a node takes in packets in the order the broker sent them to it, whatever other nodes do, the publish indices of one publisher's messages never decrease at any of its subscribers |
| `Theorems.BoundedCopies` | src/broker.cpp:286-296 | in every run a subscriber is handed one published message at most as often as its node is subscribed to the topic, in spite of duplicated and reordered packets |
| `Theorems.ListsAreDeclared` | src/node.cpp:149-221 | in every run the broker lists a connected node as publisher or subscriber of a topic exactly as often as the node has publishers or subscribers with the topic's ID, and as often as it has created them for the topic's name, whatever was lost or duplicated |
| `Theorems.DeclarationsStay` | src/node.cpp:131-147 | in every run names, types and sizes stay as declared, and a publisher keeps the priority it was created with, whatever the broker reports |
| `Theorems.CopiesAsDeclared` | src/broker.cpp:286-296 | so a connected node's subscriber is handed one published message at most as often as the node itself has created subscribers for the topic name |
| `Theorems.StaleNeverMatters` | src/broker_protocol.cpp:69-76 | in every run, what the broker makes of a packet does not depend on what its buffer held before |
| `SystemSubscriptions.StepKeepsSubscriptions` | src/broker.cpp:274-296 | every step keeps the broker's lists equal to the publishers and subscribers each node has filed, plus the one whose confirmation it has not heard yet |
| `Theorems.PrefixAcceptance` | src/broker.cpp:112-123 | in every run the packets accepted from a node are a prefix of those it attempted to send, each once and in order, and of all its packets the broker would accept exactly the next one |
| `Theorems.RpcPairing` | src/node.cpp:301-341 | every response a blocking call can receive answers the request this call sent: same origin, same counter, RPC ID one less modulo 2^32 (for a failure as the same signed 32-bit number), content true of the broker's tables, and understood unless it reports failure |
| `Theorems.AtMostOneOutstanding` | src/node.cpp:301-319 | in every state of every run a node has at most one request or response outstanding, both taken together |
| `Theorems.ViewAgreement` | src/node.cpp:16-43 | once connected, in every later state the broker's entry at the node's ID is that node, every topic and type ID resolves to the node's own names, size and priority, and the broker lists the node at each topic; what the node learned does not change |
| `Theorems.BrokerStaysInRange` | src/broker.cpp:233-272 | in every run no packet ever sent can make the broker read past its type table, and the tables satisfy the registry invariant |
| `Theorems.PriorityOrder` | src/node.cpp:267-294 | every pass of a connected node visits each publisher and subscriber exactly once, in non-increasing priority, subscribers first at equal priority, in order of creation among publishers or subscribers of equal priority, under the broker's priority for all but don't-care publishers |
| `Theorems.ReachableNodesAreWired` | src/node.cpp:170-230 | every node of every run meets the assumption on indexes under which the scheduler's properties are proved |
| `Theorems.StepInvariant` | src/node.cpp:16-437 | every step of broker, node or network keeps the invariant of the whole system |
| `Theorems.RunInvariant` | src/broker.cpp:33-110 | the invariant holds in every bounded state of every run |
| `Theorems.ConnectedStays` | src/node.cpp:235-299 | a connected node stays connected with the same IDs, names and indexes for the rest of the run |
| `SystemCounters.AcceptsNext` | src/broker.cpp:112-123 | given the counters of a node and the broker's record of it, an attempt is accepted if and only if it is the next one |
| `SystemCounters.StepKeepsCounters` | src/node.cpp:321-337 | every step keeps attempts consecutively numbered from the start counter and accepted packets a prefix of them |
| `SystemRpc.StepKeepsRpc` | src/broker.cpp:298-304 | every step keeps the pairing of requests and responses |
| `SystemViews.StepKeepsViews` | src/node.cpp:60-233 | every step keeps what nodes have learned true of the broker's tables |
| `SystemViews.StepKeepsIndexes` | src/node.cpp:170-230 | every step keeps both indexes of a node exact: each filed publisher and subscriber once, under its own topic ID and under its own priority, in order of creation |
| `SystemViews.LearnKeepsView` | src/node.cpp:131-221 | a response that answers the request of the current call makes the node's next view of the broker true |
| `SystemData.StepKeepsPublished` | src/node.cpp:328-332 | every step conserves published payloads, and every data packet sent is the encoding of one of them under the IDs its publisher learned |
| `SystemData.StepKeepsIntegrity` | src/node.cpp:432-434 | every step keeps packets in flight, queued messages and delivered messages equal to published payloads of the same topic, type and size |
| `SystemData.TakeInQueues` | src/node.cpp:392-437 | receiving a packet changes a subscriber's queue only by appending the published payload it stands for |
| `SystemDelivery.StepKeepsCopies` | src/broker.cpp:100-107 | every step keeps copies in flight, queued and delivered, taken together, within the number of subscriptions |
| `SystemDelivery.StepKeepsOrder` | src/subscriber.cpp:22-28 | every step with in-order receiving at a node keeps its delivered, queued and arriving messages of one sender in send order |
| `SpinPaths.SpinIsPath` | src/node.cpp:253-299 | a whole `spin_once`, whatever arrives, whatever callbacks publish and whichever sends fail, is a path of system steps to the node state the scheduler model computes; the messages handed to each callback, the payloads each publisher accepted and the send attempts grow by exactly what the events of the pass tell, and nothing else in the system changes but the packet taken in, so results about runs cover all passes |
| `Relabelling.SpinMaps` | src/node.cpp:253-299 | relabelling queued messages by any function commutes with `spin_once`: same schedule, same sends, same result |
| `Relabelling.NodeSpinsAsSystem` | src/node.cpp:392-437 | on a forwarded packet a node does with payloads what the system model does with payloads and their origin |
| `Sessions.ConnectIsPath` | src/node.cpp:16-43 | from every state of the invariant in which a node may go on connecting, for any failing sends and receives, a whole `connect` is a path of enabled steps of node and broker to the node, tables, requests and outcome that the call sequence computes, and no other node moves |
| `Sessions.SessionIsConnect` | src/node.cpp:301-319 | that call sequence is `Connect` in the world that brings the broker's answers |
| `ConnectRuns.ConnectedByConnect` | src/node.cpp:16-43 | in every run, whatever packets get in between, a node is connected if and only if a `connect` in the world of what it met has succeeded and failed if and only if it has failed, with the IDs, names and indexes that `Connect` computes and its requests as the node's first packets; what it has met is a function of the run |
| `Connecting.ConnectSucceedsIff` | src/broker.cpp:196-296 | from every state of the invariant an undisturbed `connect` ends, and it succeeds if and only if the node's name is new and each publisher and subscriber fits: its type is new or has its size, its topic is new and declared with a priority or has its type and, unless don't-care, priority, where the first of the node's own declarations of a type or topic counts as known |
| `Connecting.SessionSucceedsIff` | src/broker.cpp:196-296 | the same condition decides the outcome of the call sequence from any tables that satisfy the registry invariant |
| `Declarations.TypeStep` | src/broker.cpp:210-231 | a type registration is confirmed if and only if the name is new or has that size, and then first registrations win |
| `Declarations.TopicStep` | src/broker.cpp:233-272 | a topic registration under a known type is confirmed if and only if the topic is new and has a priority or agrees in type and, unless don't-care, priority |
| `Declarations.AddStep` | src/broker.cpp:274-296 | adding a known node to a known topic under its type is never refused |
| `Progress.CallCompletes` | src/node.cpp:301-319 | from a node whose packets have all arrived there is a path that completes the current call, and it moves on exactly if the broker does not refuse the request; no other node moves |
| `Progress.DeliveryPossible` | src/broker.cpp:77-108 | in a state that satisfies the invariant and in which a publishing node's packets have all arrived, there is a path on which its front message is handed unchanged to any connected, idle subscriber of the same topic name |
| `Progress.TurnReaches` | src/broker.cpp:100-107 | an accepted data packet of a registered publisher reaches every connected node that has a subscriber of its topic |
| `Sessions.CallIsEnabled` | src/node.cpp:301-326 | the steps of one blocking call are enabled where they are due: request, failed send, failed receive, and receipt of any packet that has got into the inbox meanwhile; each leaves the node as the call sequence says and takes the packet out |
| `Dialling.RequestsAreNumbered` | src/node.cpp:321-341 | whatever the network does, the requests of a `connect` carry consecutive counters and RPC IDs one less, and each attempt consumes one counter |
| `Dialling.SuccessMakesAllCalls` | src/node.cpp:25-39 | a successful `connect` makes one call for the node and three for each publisher and subscriber |
| `Nodes.NodeProcess.Connect` | src/node.cpp:16-43 | the loops of `connect` produce the node, the requests and the result of the call sequence, for any behaviour of the network |
| `Nodes.NodeProcess.RegisterPublisher` | src/node.cpp:131-180 | three calls in order, stopping at the first that fails; on success the publisher is filed under its topic and its own priority |
| `Nodes.NodeProcess.RegisterSubscriber` | src/node.cpp:182-233 | three calls in order, stopping at the first that fails; the reported priority is adopted before filing |
| `Nodes.NodeProcess.BrokerRpcBlocking` | src/node.cpp:301-341 | sends a request whose RPC ID is the previous counter, and returns the response only if a control packet arrives |
| `Nodes.NodeProcess.RegisterNode` | src/node.cpp:60-79 | one exchange of the call sequence: on success the node's ID is the one the broker gave out |
| `Nodes.NodeProcess.RegisterMessageType` | src/node.cpp:81-102 | asks with type name and size; yields an ID exactly if a type registration is confirmed |
| `Nodes.NodeProcess.RegisterTopic` | src/node.cpp:104-129 | asks with topic name, type ID and priority; yields ID and actual priority exactly if confirmed |
| `Nodes.NodeProcess.FilePublisher` | src/node.cpp:170-177 | files the publisher once in each of the two indexes and changes nothing else |
| `Nodes.NodeProcess.FileSubscriber` | src/node.cpp:223-230 | files the subscriber once in each of the two indexes and changes nothing else |
| `Nodes.NodeProcess.NextCounter` | src/node.cpp:334-337 | the 32-bit successor, stored and returned |
| `Nodes.NodeProcess.QueueAtSubscribers` | src/node.cpp:432-434 | the loop queues at each listed subscriber as many bytes as that subscriber's size |
| `Nodes.NodeProcess.RunPass` | src/node.cpp:267-294 | the nested loops visit the stops of the schedule in order until one fails, and report whether anything was sent |
| `Nodes.NodeProcess.SpinOnce` | src/node.cpp:253-299 | the nested loops compute the pass of the scheduler model: same node, same events in the same order, same result, for any datagram, publishing callbacks and failing sends |
| `Nodes.NodeProcess.SpinWhileWork` | src/node.cpp:245-251 | on any finite backlog with silent callbacks the loop terminates and computes `WhileWork` |
| `Nodes.NodeProcess.SpinLoop` | src/node.cpp:235-251 | the loops of `spin` and `spin_while_work` compute `Loop` for any packets arriving meanwhile and any publishing callbacks, as far as the given rounds reach |
| `DrainProofs.LoopIsRun` | src/node.cpp:235-251 | such a loop is a run of passes, so conservation, latency and queue bounds hold of it |
| `DrainProofs.LoopEnds` | src/node.cpp:235-251 | in terms of what the passes return: `spin_while_work` goes on exactly as long as they return success, `spin` exactly as long as they return no error, and each ends with the first other result |
| `Nodes.NodeProcess.ProcessIncomingMessage` | src/node.cpp:392-437 | unless a subscriber of the topic would copy past the buffer, queues the payload at the topic's subscribers and returns 1 if there is one, 0 exactly if nothing has arrived, and -1 otherwise |
| `Nodes.NodeProcess.VisitPublisher` | src/node.cpp:280-293 | sends the encoding of the front message; only success removes it, and either way a counter is consumed |
| `Nodes.NodeProcess.VisitSubscriber` | src/node.cpp:268-279 | the callback runs and may publish before its message is removed |
| `SchedulerProofs.SpinOccupancy` | src/node.cpp:253-299 | from empty subscriber queues, delivery puts one message into the queue of each subscriber of the topic and nothing elsewhere, and no queue ever holds more than one message during the pass |
| `SchedulerProofs.SpinStaysQuiet` | src/node.cpp:267-279 | an error-free pass from empty subscriber queues leaves them empty |
| `SchedulerProofs.SpinHandsOver` | src/node.cpp:267-279 | an error-free pass from empty subscriber queues hands a delivered message to each subscriber of its topic, once, in that same pass, and nothing else to any callback |
| `SchedulerProofs.PassHands` | src/subscriber.cpp:22-28 | in every pass, failing or not, what is handed to a callback followed by what stays queued is what was queued, in order |
| `SchedulerProofs.CallbackVisit` | src/subscriber.cpp:22-28 | a callback visit hands the oldest message over, then lets the callback publish, then removes the message |
| `SchedulerProofs.PassSplits` | src/node.cpp:285-289 | a pass ends at the first stop that fails, and otherwise goes on from where its beginning has led |
| `SchedulerProofs.PassFailsLast` | src/node.cpp:285-289 | a pass fails exactly if a send fails, and that is its last event |
| `SchedulerProofs.SpinResults` | src/node.cpp:253-299 | the result of `spin_once`, read off its events and the packet: an error exactly if a send failed, otherwise success exactly if a packet was queued at a subscriber or a message was sent |
| `SchedulerProofs.TenAccepted` | include/crps/defaults.h:7 | an idle publisher accepts ten messages and not the eleventh |
| `SchedulerProofs.RunStaysQuiet` | src/subscriber.cpp:18-28 | subscriber queues are empty after every error-free run of `publish` and `spin_once` calls |
| `SchedulerProofs.RunConserves` | src/node.cpp:280-293 | in every run, with failing sends too, payloads sent followed by those queued are those queued before followed by those accepted, in order, and each attempt consumed one counter |
| `SchedulerProofs.SentWithinBound` | src/node.cpp:267-294 | a message with k messages ahead is sent, as number k, within k + 1 error-free passes, under any load and with publishing callbacks |
| `SchedulerProofs.AllSentWithinTen` | include/crps/defaults.h:7 | ten error-free passes send every message accepted before them |
| `SchedulerProofs.RunSendsOnePerPass` | src/node.cpp:280-293 | every error-free pass sends at least one message of each publisher that has one |
| `SchedulerProofs.ScheduleInOrder` | include/crps/node.h:54-58 | the stops of a pass come in non-increasing priority with subscribers first |
| `SchedulerProofs.InsertAddsStops` | src/node.cpp:174-177 | filing under a priority adds exactly the given stops to a pass |
| `SchedulerProofs.InsertPosition` | src/node.cpp:174-177 | filing puts the new stop at one position of the schedule, behind everything that may come before it and so behind all of its own priority and kind, and leaves all other stops in place |
| `SchedulerProofs.InsertSorted` | src/node.cpp:227-230 | filing in order of creation keeps the schedule sorted by priority, kind and creation |
| `SchedulerProofs.InsertKeepsOrder` | include/crps/node.h:54-58 | filing keeps the priority index strictly descending |
| `DrainProofs.WhileWorkDrains` | src/node.cpp:245-251 | with silent callbacks and empty subscriber queues at the start, `spin_while_work` leaves every publisher and subscriber queue empty when it returns true, for any pattern of failing sends |
| `DrainProofs.SpinShrinks` | src/node.cpp:253-299 | without publishing callbacks a pass never adds publisher messages, and removes one if it sent anything, which is why the loop stops |
| `DrainProofs.BacklogConsumedIff` | src/node.cpp:245-264 | when `spin_while_work` returns true, for any pattern of failing sends, it has consumed the whole backlog if and only if no undeliverable packet other than the last is met when the publishers have run dry; and it returns true if no send fails |
| `DrainProofs.EarlyStopExample` | src/node.cpp:256-264 | a node without subscribers stops at the first of two undeliverable packets |
| `MessageQueues.MessageQueue.Execute` | include/crps/message_queue.h:15-51 | any sequence of pushes, pops and header writes behaves, in results and payloads, as on a bounded FIFO |
| `MessageQueues.MessageQueue.Push` | include/crps/message_queue.h:38-51 | every buffer of the pool stays in exactly one of free list and queue, once; the payload is appended unless the queue is full, and no queued buffer changes |
| `MessageQueues.MessageQueue.Pop` | include/crps/message_queue.h:30-37 | the front buffer moves to the front of the free list, for every header size the payload view loses its head |
| `MessageQueues.MessageQueue.Get` | include/crps/message_queue.h:24-29 | the front buffer itself, or null exactly if the queue is empty |
| `MessageQueues.MessageQueue.Empty` | include/crps/message_queue.h:15-17 | holds exactly if nothing is queued |
| `MessageQueues.MessageQueue.Full` | include/crps/message_queue.h:18-20 | an empty free list means exactly that the queue holds its whole capacity |
| `MessageQueues.MessageQueue.Size` | include/crps/message_queue.h:21-23 | the number of queued buffers |
| `MessageQueues.MessageQueue.Stamp` | src/node.cpp:328-332 | writing a header into the front buffer leaves all payloads as they are |
| `MessageQueues.MessageQueue.constructor` | src/message_queue.cpp:5-11 | builds a pool of distinct buffers, all free |
| `Endpoints.Publisher.Publish` | src/publisher.cpp:17-19 | returns false exactly if ten messages are queued; otherwise appends the payload |
| `Endpoints.Publisher.FillHeader` | src/node.cpp:328-332 | filled in place, the front buffer is the encoding of the front payload, and no queued payload changes |
| `Endpoints.Publisher.PopMessage` | include/crps/publisher.h:50-52 | removes the front payload |
| `Endpoints.Publisher.SetTypeId` | include/crps/publisher.h:38-40 | changes the type ID and nothing else |
| `Endpoints.Publisher.SetTopicId` | include/crps/publisher.h:41-43 | changes the topic ID and nothing else |
| `Endpoints.Publisher.constructor` | src/publisher.cpp:7-15 | an empty queue whose buffers have room for header and message |
| `Endpoints.Subscriber.constructor` | src/subscriber.cpp:7-16 | an empty queue whose buffers have room for one message |
| `Endpoints.Subscriber.QueueMessage` | src/subscriber.cpp:18-20 | appends the payload unless ten are queued, and says which |
| `Endpoints.Subscriber.FrontMessage` | src/subscriber.cpp:22-26 | the callback gets the oldest payload |
| `Endpoints.Subscriber.PopMessage` | src/subscriber.cpp:27-28 | removes the payload the callback got |
| `BrokerProofs.ProcessKeepsRegistry` | src/broker.cpp:125-194 | every request that does not read past the type table keeps names unique, type and node IDs in range and priorities stated |
| `BrokerProofs.RunKeepsRegistry` | src/broker.cpp:125-296 | every run of such requests keeps the registry invariant and the meaning of all IDs |
| `BrokerProofs.ProcessExtends` | src/broker.cpp:196-296 | no request changes the meaning of an ID, and a refused one changes nothing |
| `BrokerProofs.ProcessAnswers` | src/broker.cpp:125-194 | every response is of the kind asked for and true of the new tables; a success echoes the RPC ID, a failure the same number as signed 32-bit |
| `BrokerProofs.AddChangesOneList` | src/broker.cpp:274-344 | an add request is confirmed exactly if all three IDs are known and the type is the topic's; it then appends the node once to one list of that topic, and otherwise fails; nothing else changes |
| `BrokerProofs.UnsupportedChangesNothing` | src/broker.cpp:185-192 | requests that are not implemented get an empty response and change nothing |
| `BrokerProofs.NewTopicNeedsPriority` | include/crps/topic.h:12 | a topic that does not exist yet is refused exactly at priority -101 |
| `BrokerProofs.NodesRefineMap` | src/broker.cpp:196-208 | the node table behaves as a map from names in which the first registration wins and no second succeeds |
| `BrokerProofs.TypesRefineMap` | src/broker.cpp:210-231 | the type table behaves as such a map; registering again with the same size returns the same ID, with another size fails |
| `BrokerProofs.TopicsRefineMap` | src/broker.cpp:233-272 | the topic table behaves as such a map; registering again succeeds exactly with the same type and the same or don't-care priority, a new topic needs a stated priority |
| `BrokerProofs.ListsAreConfirmed` | src/broker.cpp:274-296 | over any run of packets, a topic's publisher list and its subscriber list hold exactly the node IDs of the confirmed requests for them, in order |
| `BrokerProofs.ExactFanOut` | src/broker.cpp:77-108 | over any run, and whatever the buffer held before each packet, an accepted data packet that names a known topic and the topic's own type is sent unchanged once per confirmed subscription in order, any other to nobody, and no table changes |
| `Brokers.BrokerServer.SpinOnce` | src/broker.cpp:44-109 | one iteration of the loop, over any previous content of the buffer, yields the broker state and the sends of the broker model |
| `Brokers.BrokerServer.VerifyAndUpdateClientCounter` | src/broker.cpp:112-123 | accepts an unknown client or the 32-bit successor, and records the counter exactly then |
| `Brokers.BrokerServer.ProcessControlRequest` | src/broker.cpp:125-194 | dispatches to the table operations and forms the response, for every request that does not read past the type table |
| `Brokers.BrokerServer.RegisterNode` | src/broker.cpp:196-208 | the linear search finds the first entry of that name; appends or refuses |
| `Brokers.BrokerServer.RegisterMessageType` | src/broker.cpp:210-231 | linear search, then append, confirm or refuse |
| `Brokers.BrokerServer.RegisterTopic` | src/broker.cpp:233-272 | linear search, then append, confirm or refuse, reporting the actual priority; an unknown type ID is covered wherever the code does not read the type table at it |
| `Brokers.BrokerServer.AddPublisher` | src/broker.cpp:274-284 | appends the node to the topic's publishers exactly if the parameters are valid |
| `Brokers.BrokerServer.AddSubscriber` | src/broker.cpp:286-296 | appends the node to the topic's subscribers exactly if the parameters are valid |
| `Brokers.BrokerServer.ValidateTopicParameters` | src/broker.cpp:321-344 | holds exactly if all three IDs are known and the type is the topic's |
| `Brokers.BrokerServer.ForwardData` | src/broker.cpp:77-108 | the loop over the subscriber list sends the packet to each entry's address in order |
| `Counter.GapRejects` | src/broker.cpp:112-123 | after g lost packets exactly the next 2^32 - g are rejected and all later ones accepted; without a gap all are accepted, across the wrap too |
| `Counter.PrefixOnlyIff` | src/broker.cpp:112-123 | for arbitrary loss, duplication and reordering only prefixes are accepted if and only if fewer than 2^32 packets are sent |
| `Counter.StaleDuplicateAccepted` | src/broker.cpp:115 | after 2^32 packets a duplicate of the first one is accepted as new |
| `Counter.InOrderAccepted` | src/node.cpp:334-337 | in-order delivery is accepted entirely, for any number of packets |
| `Counter.UnknownSenderAccepted` | src/broker.cpp:113-114 | the first packet of an unknown sender is accepted whatever its counter |
| `Codec.DataRoundTrip` | src/broker_protocol.cpp:21-90 | decoding an encoded data packet, over any stale buffer content, yields counter, IDs (modulo 2^32), size and payload |
| `Codec.ControlRoundTrip` | src/broker_protocol.cpp:7-68 | decoding an encoded control packet, over any stale buffer content, yields counter and text |
| `Codec.EncodedBytes` | include/crps/broker_protocol.h:22-44 | the layout of both kinds of packet with their type bytes 1 and 2, and the size of the receive buffer |
| `Codec.WordBytes` | src/broker_protocol.cpp:14-31 | the most significant byte of every word comes first |
| `Codec.Classified` | src/broker_protocol.cpp:34-90 | what every datagram is taken for, exactly, by its first byte, its words and whether the 32-bit end offset lies within it, with all fields reported |
| `Codec.DecodeIgnoresStale` | src/broker_protocol.cpp:44-90 | what is decoded from a datagram of at least 17 bytes does not depend on what the buffer held before |
| `Codec.CounterIgnoresStale` | src/broker_protocol.cpp:37-49 | the counter never does |
| `Codec.DataInjective` | src/broker_protocol.cpp:21-32 | distinct data messages have distinct packets |
| `Codec.ControlInjective` | src/broker_protocol.cpp:7-19 | distinct control messages have distinct packets, and none of them is a data packet |
| `Codec.TruncatedDataAccepted` | src/broker_protocol.cpp:69-86 | a data packet is accepted although its payload does not fit if and only if it misses at most eight bytes or its end offset wraps |
| `Codec.TruncatedDataExample` | src/broker_protocol.cpp:77-78 | a concrete such packet |
| `Codec.ControlToPacketBuffer` | src/broker_protocol.cpp:7-19 | the new buffer holds the encoding of counter and text |
| `Codec.FillDataHeader` | src/broker_protocol.cpp:21-32 | the first 17 bytes become the header and all others keep their value |
| `Codec.DecodePacketBuffer` | src/broker_protocol.cpp:34-90 | the step-by-step decoder computes `Decode` |

## Left out

- Sockets, address look-up and the two address caches (src/linux_network.cpp): replaced by the lossy network and by positions as addresses.
- JSON text: opaque bytes in `Codec`, typed requests and responses elsewhere. A malformed text, on which the parser throws, is not part of this model.
- Unimplemented control scopes and actions: one request, `Unsupported`, that gets an empty response and changes nothing.
- Logger, operating system and debug output, including table look-ups made only for it.
- Nodes.NodeProcess.SpinOnce: publishers and subscribers are fields of sequence type named by position, not shared objects; the in-place queue of each is proved separately in `Endpoints` and `MessageQueue` against the same operations (`Enqueue`, removal of the head, `EncodeData`). Relocation of the vectors that hold them is not captured: all are created before `connect`.
- Nodes.NodeProcess.SpinWhileWork: the backlog is fixed before the call and callbacks publish nothing; otherwise the loop need not terminate, and `SpinLoop` covers as many passes as one likes.
- Nodes.NodeProcess.SpinLoop: requires, as `SpinWhileWork` does, that all subscribers' messages fit the receive buffer; stops when the given rounds are used up, where the code would wait for the next packet or go on.
- Nodes.NodeProcess.ProcessIncomingMessage: requires (`CopiesFit`) that no subscriber of the packet's topic copies past the end of the 64 KiB receive buffer; what the code does otherwise is undefined, and `Theorems.EndToEndIntegrity` shows cannot happen in runs of the system. A receive that fails other than for lack of packets, which changes nothing either, is not told apart from one for lack of packets.
- Brokers.BrokerServer.RegisterTopic: requires that the code does not read past the type table (`BrokerModel.Defined`); what it does otherwise is undefined.
- Brokers.BrokerServer.ProcessControlRequest: the same requirement, for the same reason.
- Brokers.BrokerServer.SpinOnce: the same requirement again. Subscriber IDs must be in range, which `BrokerProofs.RunKeepsRegistry` and `Theorems.BrokerStaysInRange` provide. The previous content of the buffer is a parameter. Raw bytes with the control tag are not part of this model outside `Codec`, since control packets are typed. Failing sends to subscribers are losses in the network; that the loop ends when a response cannot be sent corresponds to runs in which the broker takes no more turns.
- Codec.DecodePacketBuffer: the buffer must hold at least 17 bytes, as both receive buffers do; an end offset below its begin offset, on which the parser gets a reversed range, is reported as `Fault`.
- Theorems.EndToEndOrder: needs in-order receiving at the subscriber's node, since nodes have no counter check; the other theorems do not.
- System: the broker's steps decode over a zeroed buffer; `Theorems.StaleNeverMatters` shows that any other content gives the same.
- Theorems.PrefixAcceptance: one connection attempt per address; reconnecting from the same socket and process restarts are not part of this model.
- Sessions.ConnectIsPath: the faults considered are a failing send and a failing receive; a forwarded packet that reaches a node between request and response also ends `connect`, which `ConnectRuns.ConnectedByConnect` covers.
- Connecting.ConnectSucceedsIff: as everywhere, fewer than 2^32 packets from the node and IDs that fit 32 bits.
- Callbacks that call back into `spin`: callbacks publish or do nothing.
- Registries are sequences of unbounded length; that IDs are 32 bits wide shows in `Bounded` and in the header fields. Priorities are unbounded integers rather than 8 bits wide.
- Benchmark, demo programs and option parsing.
- Announced features without code: priority queues in the broker, unregistering, liveness monitoring, counters from the broker to nodes.
