# Verification of the shopping-list CRDTs, the Majordomo broker and their neighbours

This project models the replicated shopping lists of this repository, the broker, workers
and hash ring that carry them, and two further ZeroMQ patterns kept beside them, and proves
what they promise. `dafny verify dfyconfig.toml` checks all of it.

The code works by changing objects, so most of the model does too. Each class keeps the
fields of the C++ class it stands for, and each of its methods is proved to do to those
fields what a function on values says. The main theorems are about those functions: over
every input, or over every run of a network of such objects.

| files | what they model |
|---|---|
| `Order`, `Contexts`, `Counters`, `States`, `ORMaps` | the causal CRDTs: dot contexts with their merge and compaction loops, dot kernels and counters, and the map whose counters share one context by reference. A state is a context plus the live dots of every item; per dot the order is unknown, live, dead, and join is the maximum |
| `Replication`, `Quantities` | runs of a network of replicas (edits, published snapshots, joins of any snapshot): what every run keeps, convergence, add-wins, conservation of quantities |
| `Histories`, `Tallies` | the same runs with the removals in each state's past: observed-remove semantics, and what quantities add up to once items are removed |
| `Json`, `ShoppingLists`, `Store` | the list's user operations, its JSON tree, and the worker's store |
| `DeltaCounters` | the counter that returns deltas |
| `Messages`, `Majordomo`, `Dispatching`, `BrokerRuns`, `RequestFlow`, `Protocol`, `Brokers`, `WorkerApi` | multi-part messages; the broker as a state machine on values, its invariants over runs, conservation of requests, whom they go to, what each message does in the protocol's own terms, return routing; and the broker built of worker and service objects that refines the state machine |
| `HashRings`, `RingJoins` | consistent hashing, placement of a list's replicas, and workers joining the ring |
| `Clone` | snapshot-plus-updates replication |
| `BinaryStar`, `Heartbeats` | the failover pair, and how promptly its servers must speak and hear |

Iterators of ordered containers are the key they stand on, so that a loop that erases and
inserts while it iterates is the loop of the source. Clock readings, hash functions and the
order of unordered containers are parameters or arbitrary choices.

Where a promise is not kept by the code as written, the exact condition under which it is
kept is proved, and a case that breaks it is given:

- a worker that already waits and sends another reply: `BrokerRuns.ReplyExactWhen`, `BrokerRuns.UncalledReplyListsTwice`;
- clamping of negative contributions: `Quantities.QuantityIsFoldOfWrites`, `Quantities.OverboughtReadsHigh`;
- a data key equal to the end marker: `Clone.MarkerDecides`, `Clone.MarkerAmongData`;
- a nameless server on the ring: `HashRings.ReachIsFull`, `HashRings.NamelessServerStopsWalk`;
- a list whose context was written uncompacted: `Store.ReadBack`, `Store.EditedCloudIsNotReadBack`;
- an update whose dot the context already holds: `States.EditInflates`, `States.ReusedDotGoesDown`, `Store.ReadListGoesDown`;
- workers whose address is not a port of localhost, or whose hashes collide, joining the ring:
  `RingJoins.JoinCompletesWhen`, `RingJoins.AlwaysCompleteWhen`, `RingJoins.ForeignHostIsNotReached`,
  `RingJoins.SameHashIsLost`;
- unwrapping without an empty delimiter: `Messages.UnwrapUndoesWrap`, `Messages.EmptyFrameIsLost`;
- a failover while the peer is active, and a restart of the primary while the backup has yet
  to hear of its former activity: `BinaryStar.RequestKeepsWhen`, `BinaryStar.RestartKeepsWhen`,
  `Heartbeats.SlowPeerMakesTwoActive`, `Heartbeats.StaleWordMakesTwoActive`.

Three places of the code are kept literally although they look unintended. The test for
reserved "mmi." names asks only for four letters of which the first is one of `m`, `i` and
`.`; a service with such a name is created but never gets a request queued or sent
(`RequestFlow.ReservedGetsNothing`), and for workers the test looks at the worker's identity
instead of the service (`Majordomo.Reserved`). Where both sides of a kernel join hold a dot,
the result of joining the two values is thrown away, so a replica keeps its own; that this
does no harm is proved over runs (`Replication.LiveDotsAreLatest`: a dot fixes its item and
value everywhere). And nextDot numbers a new replica's dots from 1 (src/crdt/ormap.h:40-46),
while compact takes an unknown replica's dots into the vector from 0 on
(src/crdt/ormap.h:89-92): a context read from a tree can keep a replica's dot 1 in the cloud,
compacted, and then hand it out again (`States.Reused`). No run of replicas that start empty
gets there (`Replication.RunKeepsInv`).

## Model

| member | source | states |
|---|---|---|
| Contexts.NormalFormUnique | src/crdt/ormap.h:83-110 | compacted contexts that contain the same dots are equal, vector and cloud |
| Contexts.CtxJoinContains | src/crdt/ormap.h:48-81 | a joined context is compacted and contains exactly the union |
| Contexts.CtxJoinLattice | src/crdt/ormap.h:48-110 | context join is commutative and associative, idempotent and with the empty context as unit on compacted contexts, all on the nose |
| Contexts.DotContext.NextDotOf | src/crdt/ormap.h:40-46 | hands out the replica's next dot and advances the vector by exactly that dot |
| Contexts.DotContext.JoinClock | src/crdt/ormap.h:53-74 | the two-pointer merge, inserting into the vector it walks, gives the pointwise maximum |
| Contexts.DotContext.CompactCloud | src/crdt/ormap.h:83-110 | the restarting sweep that erases while it iterates terminates and reaches the compacted form |
| Contexts.DotContext.Join | src/crdt/ormap.h:48-81 | the context becomes the join of the two values; joining itself changes nothing |
| Counters.KernelJoinIsMax | src/crdt/ormap.h:159-200 | per dot, the join of two kernels is the maximum in unknown, live, dead, and live dots stay in the context |
| Counters.CausalCounter.Join | src/crdt/ormap.h:159-200 | the three loops that erase and insert while iterating compute exactly the surviving dots, against both contexts as they were, then join the contexts; joined with itself, a counter keeps its dots |
| Counters.CausalCounter.Local | src/crdt/ormap.h:243-251 | the sum of one replica's live dots |
| Counters.CausalCounter.Read | src/crdt/ormap.h:253-259 | the sum of all live dots |
| Counters.CausalCounter.Gather | src/crdt/ormap.h:261-269 | the largest value of the replica's dots, not below 0, and exactly those dots |
| Counters.CausalCounter.Inc | src/crdt/ormap.h:261-274 | the replica's dots give way to one fresh dot holding the larger of 0 and their largest value, plus the amount |
| Counters.CausalCounter.Dec | src/crdt/ormap.h:276-290 | the same with the amount taken off |
| Counters.UpdateContributes | src/crdt/ormap.h:261-290 | an update moves its own replica's contribution by the amount, from no less than 0, and no other replica's |
| ORMaps.JoinEntriesIsJoin | src/crdt/ormap.h:395-431 | joining every entry against both original contexts is the join of states, when all counters refer to their map's context |
| ORMaps.ORMap.At | src/crdt/ormap.h:375-381 | a missing key gets an empty counter on the map's own context; everything else stays |
| ORMaps.ORMap.Remove | src/crdt/ormap.h:383-386 | drops the key's live dots and keeps the context, so the dots are dead; the wiring to the one context holds |
| ORMaps.ORMap.Reset | src/crdt/ormap.h:388-393 | drops every entry and keeps the context |
| ORMaps.ORMap.Inc | src/crdt/ormap.h:261-274 | through the shared context, an update of one item is the update of the whole state |
| ORMaps.ORMap.Dec | src/crdt/ormap.h:276-290 | the same for a decrement |
| ORMaps.ORMap.Join | src/crdt/ormap.h:395-431 | the sorted walk that saves and restores the shared context around each key computes the simultaneous join of all keys against both original contexts, and leaves every counter on the map's own context |
| ORMaps.ORMap.JoinSelf | src/crdt/ormap.h:395-431 | the same walk over the map itself changes nothing |
| States.JoinIsMax | src/crdt/ormap.h:395-431 | the join of states is the least upper bound: contained dots are the union, each dot of each item stands where it stands furthest |
| States.JoinIdempotent | src/crdt/ormap.h:395-431 | joining a state with itself changes nothing |
| States.JoinCommutative | src/crdt/ormap.h:395-431 | join is commutative where a dot fixes its value |
| States.JoinAssociative | src/crdt/ormap.h:395-431 | join is associative where a dot fixes its value |
| States.LeqIsAbsorbed | src/crdt/ormap.h:395-431 | one state is below another exactly if joining it in changes nothing but empty entries |
| States.EditInflates | src/crdt/ormap.h:261-290 | increments and decrements only move up in the order if and only if their dot is new, or already in the cloud and live at the very item; always when the context has no cloud |
| States.ReusedDotGoesDown | src/crdt/ormap.h:40-46 | a sound state in which the dot handed out is dead in the cloud, and the update takes it down |
| States.DropInflates | src/crdt/ormap.h:383-386 | removal only moves up in the order |
| Replication.RunKeepsInv | src/crdt/ormap.h:159-200 | in every run, every local and published state fits the history of writes: its live dots are the latest known writes, with their values, and its contexts have no cloud |
| Replication.LiveDotsAreLatest | src/crdt/ormap.h:40-46 | in every state of every run, a live dot lies in the context and is its replica's latest write to that item the state knows; there is at most one per replica; a dot fixes its item and its value across all states |
| Replication.StepInflates | src/crdt/shopping_list.h:77-131 | no step of any run takes a replica down in the order |
| Replication.Convergence | src/crdt/ormap.h:395-431 | two sequences drawn from one run with the same states, in any order and multiplicity, fold to equal states, context, dots, values and entries |
| Histories.ObservedRemove | src/crdt/ormap.h:159-200 | in every run with any edits, removals and joins, a dot is live at an item of a state exactly if it is its replica's latest write there that the state knows, and no removal of the item in the state's past had seen it |
| Histories.EveryRunHasPast | src/crdt/ormap.h:383-431 | every run of the network is one whose states carry their removals, so the last row is about all of them |
| Quantities.AddWins | src/crdt/shopping_list.h:88-119 | a concurrent remove and write merge, either way round, to exactly the dots the remover had not seen; the writer's contribution is the larger of 0 and its local value, plus the change |
| Quantities.ClampingOnlyAdds | src/crdt/ormap.h:261-290 | the clamped fold of a replica's writes is never below the plain sum, and equal exactly if no local value was ever negative before a write |
| Quantities.QuantityIsFoldOfWrites | src/crdt/ormap.h:253-303 | without removes, a state reads per item the sum over replicas of the clamped fold of the writes it knows; this is increases minus decreases if and only if nothing was clamped; knowing all writes means all of them count |
| Quantities.LogIsWanted | src/crdt/shopping_list.h:77-119 | in every run, what the log of a replica adds up to per item is what its own events ask for: plus for creates and increases that take place, minus for buys |
| Quantities.KnownIsWanted | src/crdt/shopping_list.h:77-119 | in every run, what a state knows of a replica adds up to what that replica's events asked for up to some point of the run |
| Quantities.QuantityIsWanted | src/crdt/shopping_list.h:68-119 | in runs without removes, a state that knows all writes reads per item at least the sum of what all replicas' events asked for, and exactly that if and only if nothing was clamped |
| Quantities.OverboughtReadsHigh | src/crdt/ormap.h:276-290 | 1 wanted, 3 bought, 1 wanted again: the quantity is 1 where increases minus decreases are -1 |
| Tallies.QuantityIsWhatStands | src/crdt/ormap.h:253-303 | in every run, with removals, a state reads per item the sum over replicas of the fold of the writes it knows, which starts again from 0 after a write whose removal its writer had learned of, and is 0 if the state knows of a removal of the last one |
| Tallies.StandingIsFold | src/crdt/ormap.h:261-290 | where nothing was removed that fold is the one without removals |
| ShoppingLists.ShoppingList.GetQuantity | src/crdt/shopping_list.h:68-75 | the item's quantity, 0 if there is no entry |
| ShoppingLists.ShoppingList.GetItemsSet | src/crdt/shopping_list.h:48-57 | exactly the items with a positive quantity, with it |
| ShoppingLists.ShoppingList.CreateItem | src/crdt/shopping_list.h:77-86 | unless the quantity is already positive, the list id's contribution to the item becomes the larger of 0 and the old one (of its dots, should there be several), plus the amount; all else stays; and says which |
| ShoppingLists.ShoppingList.RemoveItem | src/crdt/shopping_list.h:88-97 | drops the item if its quantity is positive, and says whether |
| ShoppingLists.ShoppingList.IncreaseItem | src/crdt/shopping_list.h:99-108 | the same, if the quantity is positive |
| ShoppingLists.ShoppingList.BuyItem | src/crdt/shopping_list.h:110-119 | the same with the amount taken off, if the quantity is positive |
| ShoppingLists.ShoppingList.Join | src/crdt/shopping_list.h:121-131 | joins the states of lists with equal title and url; a list with neither takes the other's; a refused join changes nothing |
| ShoppingLists.ShoppingList.JoinSelf | src/crdt/shopping_list.h:121-131 | a list joined with itself stays as it is |
| ShoppingLists.ShoppingList.ToJson | src/crdt/shopping_list.h:153-162 | the written tree is that of the list's value |
| ShoppingLists.ShoppingList.FromJson | src/crdt/shopping_list.h:164-211 | any tree, read into any list: what is taken for nothing changes nothing, missing or mistyped texts read as empty, an exception leaves the new id, title and url alone, and else what the tree says is joined in, with counters that share the list's context although the temporary's do not |
| ShoppingLists.UnreadableIsNotTaken | src/crdt/shopping_list.h:187-210 | a clock that is not of numbers, a cloud that is not of dots, an item that is not of dots with numbers: the list takes the tree's id, title and url and keeps its items and context |
| ShoppingLists.ReadIntoEmpty | src/crdt/shopping_list.h:164-211 | a full tree read into a list without items is the list it says, with its context compacted |
| ShoppingLists.JoinLoose | src/crdt/shopping_list.h:197-206 | counters on empty contexts of their own, joined into an empty map, arrive unchanged |
| Json.ValuesRoundTrip | src/crdt/shopping_list.h:158-160 | a counter's dots written as pairs and inserted back one by one are the same dots |
| Json.WrittenInOrder | src/crdt/shopping_list.h:158-160 | the pairs are written in the order of the dots: by replica in dictionary order, then by number |
| Order.DictionaryOrder | src/crdt/ormap.h:12-19 | names are ordered by the first letter that differs, a prefix first; dots by replica, then by number |
| Json.ListRoundTrip | src/crdt/shopping_list.h:153-211 | the tree of a list reads back as the list |
| Json.FirstPairCounts | src/crdt/shopping_list.h:187-206 | of several pairs with one dot the first gives the value |
| Json.PairsAreRead | src/crdt/shopping_list.h:198-202 | a dot, and a dot with its value, is read from the first two elements of an array, whatever follows |
| Json.PairsAre | src/crdt/shopping_list.h:198-202 | and from nothing else |
| Json.OneItemWritten | src/crdt/shopping_list.h:153-162 | the tree of a list with one item, spelled out |
| Store.ReadBack | src/crdt/shopping_list.h:153-211 | writing and reading into a fresh list gives an equal list if and only if the context was compacted |
| Store.EditedCloudIsNotReadBack | src/crdt/shopping_list.h:153-211 | a list that is read as it was written, and after one more item is not |
| Store.ReadListGoesDown | src/crdt/shopping_list.h:77-86 | a list that is read as it was written, and that one more item takes down in the order |
| Store.Worker.CreateList | src/worker/request_handler.cpp:47-67 | stores the list under its own url without an owner's id |
| Store.Worker.GetList | src/worker/request_handler.cpp:68-78 | what is stored under the url, or nothing |
| Store.Worker.UpdateList | src/worker/request_handler.cpp:79-99 | stores and returns the join of the stored and the received list |
| Store.RefusedUpdateIsNoUpdate | src/worker/request_handler.cpp:79-99 | an update under another title or url writes the stored list back as it reads; a nameless one takes the payload's title and url |
| Store.StoreIsFold | src/worker/request_handler.cpp:79-99 | a worker that absorbed payloads of one list holds the join of their states under no one's id |
| Store.WorkersAgree | src/worker/request_handler.cpp:79-99 | workers that absorbed the same payloads of a run for one title and url, in any order and multiplicity, have stored equal trees |
| DeltaCounters.BaseCounter.Inc | src/crdt/counter.h:17-22 | adds to the id's entry and returns a counter with that entry alone |
| DeltaCounters.BaseCounter.Read | src/crdt/counter.h:34-39 | the sum of all entries, in whatever order they are visited |
| DeltaCounters.BaseCounter.Join | src/crdt/counter.h:41-44 | the entrywise maximum, a missing entry counting as 0 |
| DeltaCounters.Counter.Inc | src/crdt/counter.h:70-74 | counts up and returns the entry it changed |
| DeltaCounters.Counter.Dec | src/crdt/counter.h:76-80 | counts down and returns the entry it changed |
| DeltaCounters.Counter.Join | src/crdt/counter.h:90-93 | joins increases and decreases |
| DeltaCounters.FoldIsTotals | src/crdt/counter.h:41-44 | joining anything around, in any order and multiplicity, gives the totals if it includes all deltas, and as well if it includes all replicas' states |
| DeltaCounters.DeltasAreEnough | src/crdt/counter.h:70-93 | in every run with non-negative amounts and one writer per id, joining all returned deltas equals joining all states, and reads increments minus decrements |
| Messages.Zmsg.PushFront | src/zmq/zmsg.hpp:142-145 | the part, cut at its first NUL, goes in front |
| Messages.Zmsg.PopFront | src/zmq/zmsg.hpp:207-214 | takes off and returns the first part |
| Messages.Zmsg.SetBody | src/zmq/zmsg.hpp:114-119 | replaces the last part, or adds the first |
| Messages.Zmsg.Wrap | src/zmq/zmsg.hpp:230-235 | puts the delimiter, if any, and then the address in front |
| Messages.Zmsg.Unwrap | src/zmq/zmsg.hpp:237-246 | takes off the address, and one part that reads as empty if it follows |
| Messages.UnwrapUndoesWrap | src/zmq/zmsg.hpp:230-246 | unwrapping returns the address, and the message if and only if the delimiter reads as empty, or there is none and nothing that reads as empty follows |
| Messages.EmptyFrameIsLost | src/zmq/zmsg.hpp:237-246 | wrapped without a delimiter, an empty first frame is lost |
| Majordomo.Best | src/broker/majBroker.cpp:160-165 | the choice loop's rule: the first worker of those that expire last |
| Dispatching.CutOne | src/broker/majBroker.cpp:116-130 | deleting expired workers one by one, in any order, deletes them all at once |
| Dispatching.CutKeeps | src/broker/majBroker.cpp:116-130 | a purge keeps registration, counts and lists exact |
| Dispatching.DispatchedKeeps | src/broker/majBroker.cpp:149-175 | a dispatch keeps them too and leaves no worker of the service waiting beside a request |
| Dispatching.ClientKeeps | src/broker/majBroker.cpp:384-400 | a client's message keeps every broker invariant |
| BrokerRuns.WorkerKeeps | src/broker/majBroker.cpp:255-327 | a worker's message keeps every broker invariant, and exact lists too unless a waiting worker replies |
| BrokerRuns.RunInvariant | src/zmq/mdbroker.cpp:100-118 | in every run: waiting workers are registered and in their own service's list; listed workers are registered with that service; a service counts exactly the workers that point at it, at least one whenever one is to be taken off; no worker waits beside a queued request |
| BrokerRuns.RunExact | src/zmq/mdbroker.cpp:344-354 | if workers reply only while not waiting, the waiting set is the disjoint union of the service lists, without duplicates |
| BrokerRuns.ReplyExactWhen | src/zmq/mdbroker.cpp:280-292 | a reply keeps the lists exact if and only if the worker was not waiting or its new expiry has passed by the purge |
| BrokerRuns.UncalledReplyListsTwice | src/zmq/mdbroker.cpp:280-292 | a worker that says READY and sends a reply nobody asked for is listed twice |
| RequestFlow.RequestsConserved | src/broker/majBroker.cpp:149-175 | in every run and for every service, the requests accepted are those sent to workers followed by those queued, in order of arrival |
| RequestFlow.ReservedGetsNothing | src/broker/majBroker.cpp:384-400 | in no run is a request for a reserved name queued or sent |
| RequestFlow.SentWell | src/broker/majBroker.cpp:157-174 | every event only appends to what was sent; each request sent goes to a worker of that service unexpired at the purge, and no worker left waiting there expires later |
| Protocol.ReadyRegisters | src/broker/majBroker.cpp:262-281 | READY from a new worker, whatever its identity but a reserved one, registers it at the service it names with its new expiry, unless that has passed by the purge; of the other workers exactly the overdue ones go |
| Protocol.StrangerIsSentAway | src/broker/majBroker.cpp:270-319 | any other command from an unregistered worker is answered with DISCONNECT and changes nothing; its own DISCONNECT is not answered |
| Protocol.ReadyTwiceIsSentAway | src/broker/majBroker.cpp:267-268 | READY from a registered worker takes it out of the registry and all lists, with a DISCONNECT |
| Protocol.DisconnectTakesOut | src/broker/majBroker.cpp:316-318 | DISCONNECT takes the worker out of the registry and all lists, without an answer |
| Protocol.HeartbeatRenews | src/broker/majBroker.cpp:308-311 | a registered worker's heartbeat sets its expiry anew and does nothing else |
| Protocol.ReplyRenews | src/broker/majBroker.cpp:292-303 | a worker that replies stays registered with a new expiry, unless that has passed by the purge |
| Protocol.OccupiedWaitsNowhere | src/broker/majBroker.cpp:282-290 | a worker said to be occupied stays registered and is in no waiting container; all else stays |
| Protocol.PurgeTakesTheOverdue | src/broker/majBroker.cpp:116-130 | exactly the waiting workers whose expiry has come leave the registry, the waiting set and the lists |
| Protocol.ClientAdds | src/broker/majBroker.cpp:384-400 | a client's message adds exactly itself, under its sender's address, behind the requests of the service it names, and nothing elsewhere; reserved names and the ring broker's HEARTBEAT add nothing |
| Protocol.ClientIsNoted | src/broker/majBroker.cpp:388-389 | a client's HEARTBEAT is noted by the ring broker and does nothing else |
| Protocol.ReservedIsAnswered | src/zmq/mdbroker.cpp:361-376 | a reserved name's service is created; mdbroker sends one answer, the ring broker none |
| Brokers.Broker.PurgeWorkers | src/broker/majBroker.cpp:116-130 | deletes exactly the waiting workers whose expiry has come |
| Brokers.Broker.ServiceRequire | src/broker/majBroker.cpp:134-145 | finds the service or creates it empty |
| Brokers.Broker.Choose | src/broker/majBroker.cpp:160-165 | the index loop finds the first worker of those that expire last |
| Brokers.Broker.Assign | src/broker/majBroker.cpp:167-173 | the oldest request goes to the chosen worker, which leaves both waiting containers |
| Brokers.Broker.ServiceDispatch | src/broker/majBroker.cpp:149-175 | queues, purges and drains as the state machine does |
| Brokers.Broker.ServiceInternal | src/zmq/mdbroker.cpp:175-197 | answers an MMI request in mdbroker; majBroker drops it |
| Brokers.Broker.WorkerRequire | src/broker/majBroker.cpp:203-217 | finds the worker or registers it without a service |
| Brokers.Broker.WorkerDelete | src/broker/majBroker.cpp:221-243 | the worker leaves its service's list wherever it occurs, the count, the waiting set and the registry, with a DISCONNECT if asked |
| Brokers.Broker.Welcome | src/broker/majBroker.cpp:269-281 | a READY worker is attached to its service, counted, and waits |
| Brokers.Broker.Occupy | src/broker/majBroker.cpp:282-290 | an occupied worker leaves the waiting set and its service's list, and stays registered |
| Brokers.Broker.PassReply | src/broker/majBroker.cpp:292-303 | the reply goes to the client whose address it carries, and the worker waits again |
| Brokers.Broker.WorkerProcess | src/broker/majBroker.cpp:255-327 | keeps the objects wired and every invariant, and does what the state machine does on each command |
| Brokers.Broker.WorkerWaiting | src/broker/majBroker.cpp:372-380 | the worker joins both waiting containers with a new expiry, and requests are dispatched |
| Brokers.Broker.ClientProcess | src/broker/majBroker.cpp:384-400 | notes a heartbeat, answers or drops a reserved name, or queues and dispatches the request under the sender's address |
| Brokers.Broker.Process | src/broker/majBroker.cpp:421-498 | each message and each purge is one step of the state machine, so all theorems about its runs hold of the objects |
| WorkerApi.Worker.SendReply | src/zmq/mdwrkapi.hpp:107-121 | the reply goes out under the kept address, which is cleared |
| WorkerApi.ReplyFramesAre | src/zmq/mdwrkapi.hpp:39-58 | the frames of a reply, spelled out |
| WorkerApi.Worker.Receive | src/zmq/mdwrkapi.hpp:134-160 | a request is handed out without its envelope and its address kept; DISCONNECT registers anew; other commands change nothing |
| WorkerApi.ReadyReachesBroker | src/zmq/mdwrkapi.hpp:39-77 | the frames of a worker's READY carry its service, are valid at any broker under a new, unreserved identity, and register it there at that service unless it has expired by the purge |
| WorkerApi.WorkerFrames | src/broker/majBroker.cpp:332-368 | the frames of a request and of a DISCONNECT as the worker gets them, and the latter is one it understands |
| WorkerApi.RequestAndBack | src/zmq/mdwrkapi.hpp:39-58 | the frames of a request at the worker carry the client's address and the body unchanged, and so do the frames of the reply at the broker |
| WorkerApi.RepliesFindTheirClient | src/zmq/mdbroker.cpp:362-376 | every request sent to a worker came from some client's message; what Receive hands out of its frames is that client's request, and the frames of SendReply, for any reply and in any later state of the broker, make it leave for exactly that client with its body unchanged |
| WorkerApi.MmiTellsTruth | src/zmq/mdbroker.cpp:175-197 | in every run the MMI answer is 200 exactly if some registered worker serves the name, and goes to the asking client |
| WorkerApi.OtherMmiIsNotImplemented | src/zmq/mdbroker.cpp:175-197 | any other reserved name is answered with 501 in place of the body, to the asking client |
| HashRings.LocateIsFirst | src/server/consistent_hashing.cpp:97-102 | lower_bound with wrap-around is the first key in clockwise order from the hash |
| HashRings.ClockwiseIsNext | src/server/consistent_hashing.cpp:129-133 | std::next with wrap-around walks the clockwise order and returns to its start |
| HashRings.ServersAre | src/server/consistent_hashing.cpp:91-153 | on any ring, where the first, second and last server from a hash stand, said by comparing hashes |
| HashRings.ConsistentHashing.AddServer | src/server/consistent_hashing.cpp:61-74 | a known server changes nothing, a new one is listed and put at its hash; servers stay at their hashes |
| HashRings.ConsistentHashing.GetServer | src/server/consistent_hashing.cpp:91-103 | the first server clockwise from the key's hash, or no name on an empty ring |
| HashRings.ConsistentHashing.GetNextServer | src/server/consistent_hashing.cpp:118-134 | the second server clockwise, the first again if there is only one |
| HashRings.ConsistentHashing.GetPreviousServer | src/server/consistent_hashing.cpp:136-153 | the last server clockwise |
| HashRings.ConsistentHashing.DistributeWork | src/worker/majWorker.cpp:89-110 | on any ring, the walk from each server to the one after the place of its name, until a nameless or known one or enough |
| HashRings.TargetsOnCircle | src/worker/majWorker.cpp:89-110 | with servers at their hashes, these are exactly the front of the clockwise order, as long as replicas and servers allow and up to a nameless server |
| HashRings.TargetsDistinct | src/worker/majWorker.cpp:89-110 | on any ring no target comes twice, the key's own server is first, and there are at most replicas + 1 |
| HashRings.ReachIsFull | src/worker/majWorker.cpp:99-107 | the walk collects as many servers as asked if and only if none but the first is nameless |
| HashRings.NamelessServerStopsWalk | src/worker/majWorker.cpp:99-107 | with a nameless server beside another one, one replica too few is found |
| HashRings.HoldersAreTargets | src/worker/majWorker.cpp:89-110 | with named servers at their hashes, the targets are the front of the clockwise order, the smaller of replicas + 1 and the ring size many, all different |
| HashRings.OneServerMore | src/server/consistent_hashing.cpp:61-74 | one more server at a free hash leaves a key's targets alone, or goes in among them and drops the last if they were full |
| RingJoins.Worker.constructor | src/worker/majWorker.cpp:283-297 | a worker starts on a ring of its contact, or of itself, and asks the contact to let it join |
| RingJoins.Worker.OnJoinRing | src/worker/majWorker.cpp:475-500 | the newcomer is added and connected to, and the ring broadcast to all push sockets in order |
| RingJoins.Worker.OnBroadcastRing | src/worker/majWorker.cpp:501-529 | ring and servers are taken over, and missing push sockets to others are connected |
| RingJoins.ConnectAddressIs | src/worker/majWorker.cpp:478-490 | a contact connects to localhost at what stands behind the last colon of the address, or at the whole of it if there is none |
| RingJoins.JoinIsDelivery | src/worker/majWorker.cpp:475-529 | through a contact whose ring has its servers at their hashes, a join comes to delivering, one after the other, the broadcasts the contact puts into its outbox |
| RingJoins.RunPlaced | src/server/consistent_hashing.cpp:61-74 | in every run of serial joins every worker's ring has its servers at their hashes |
| RingJoins.JoinCompletesWhen | src/worker/majWorker.cpp:475-529 | a complete cluster that a worker joins through any other member, for the first time or again, is complete again once the broadcasts are delivered if and only if the worker's address is "tcp://localhost:" and a port, and no other member has its hash |
| RingJoins.AlwaysCompleteWhen | src/worker/majWorker.cpp:475-529 | in every run of serial joins the cluster is complete after each of them if and only if all who joined have such addresses and no two members have one hash |
| RingJoins.CompleteWhen | src/worker/majWorker.cpp:475-529 | if nobody joined twice, the same decides whether it is complete in the end |
| RingJoins.SerialJoins | src/worker/majWorker.cpp:475-529 | in a complete cluster all workers hold the same ring and the same servers, those of the full membership, each at its hash, and push sockets to exactly every other member; all who joined through the first worker are members |
| RingJoins.ForeignHostIsNotReached | src/worker/majWorker.cpp:478-490 | a worker bound at any other host: its contact connects to the same port of localhost, and the cluster is not complete |
| RingJoins.SameHashIsLost | src/server/consistent_hashing.cpp:61-74 | two workers whose hashes collide: the cluster is not complete |
| Clone.Server.Collect | src/zmq/clonesrv4.cpp:51-60 | an update is numbered, stored and published |
| Clone.Server.SendSnapshot | src/zmq/clonesrv4.cpp:12-83 | exactly the subtree's entries, each once, then the end marker with the current number |
| Clone.Client.ReadSnapshot | src/zmq/clonecli4.cpp:31-40 | stores up to the first end marker and takes its number |
| Clone.Client.Receive | src/zmq/clonecli4.cpp:58-66 | applies an update with a higher number, drops others |
| Clone.TableIsLatest | src/zmq/clonesrv4.cpp:51-60 | the table holds, per key, the last update |
| Clone.MarkerDecides | src/zmq/clonecli4.cpp:31-40 | a loaded snapshot is the server's subtree as of its number if and only if the end marker is not itself a key there |
| Clone.MarkerAmongData | src/zmq/clonecli4.cpp:31-40 | the marker's key among the data of the whole tree: the client keeps nothing and believes to be where the server is |
| Clone.ClientFollows | src/zmq/clonecli4.cpp:31-66 | in every run with such a subscription, if the server had no entry with the marker's key under the subtree when the snapshot was taken, the client's table is at every point the server's after its first `last` updates, restricted to the subtree; the rest is queued in order; with an empty queue it is the server's now |
| BinaryStar.Bstar.StateMachine | src/zmq/bstarsrv.cpp:42-102 | each event's next state and refusal, event by event: a client is turned away exactly if the server is afterwards a pending backup or passive; two actives and two passives are refused |
| BinaryStar.Bstar.OnState | src/zmq/bstarsrv.cpp:185-194 | a peer's state is its event; unless refused the peer's expiry is renewed |
| BinaryStar.Bstar.OnTimer | src/zmq/bstarsrv.cpp:195-202 | the state goes out when it is time, and the timer is set anew |
| BinaryStar.WhoServes | src/zmq/bstarsrv.cpp:88-99 | at every point of every run in order: an active or pending primary server serves clients, a pending backup does not, a passive one does exactly when its peer's expiry has come, and is then active; beside an active peer only a pending primary serves |
| BinaryStar.PairSettles | src/zmq/bstarsrv.cpp:42-88 | two exchanges of states bring any consistent pair with nothing under way to one active and one passive server; whoever was active stays so, and of two pending ones the primary becomes active |
| BinaryStar.HearingIsNotFatal | src/zmq/bstarsrv.cpp:68-88 | no state that may be in flight makes the fatal branches run |
| BinaryStar.RequestKeepsWhen | src/zmq/bstarsrv.cpp:88-99 | a client request keeps the pair consistent if and only if it does not take over from a peer that is active or whose word of being active is under way |
| BinaryStar.RestartKeepsWhen | src/zmq/bstarsrv.cpp:110-145 | a restart keeps the pair consistent if and only if it is not the primary's while the backup is pending and a word of the primary's former activity is under way |
| BinaryStar.TakeOverOutOfOrder | src/zmq/bstarsrv.cpp:88-99 | out of order, a take-over makes two active servers at once, or the next state heard is fatal |
| BinaryStar.RestartOutOfOrder | src/zmq/bstarsrv.cpp:50-88 | out of order, a restart can be followed, without any client, by two active servers |
| BinaryStar.PairIsSafe | src/zmq/bstarsrv.cpp:42-102 | in every run with crashes, restarts, lost messages, and failovers and restarts in order, there are never two active or two passive servers, nothing heard is fatal, and a passive server has a positive peer expiry |
| Heartbeats.TimelyPairIsSafe | src/zmq/bstarsrv.cpp:185-202 | if servers speak at most a slack late, hear within a delay, stay down longer than that, and slack and delay come to less than a heartbeat, every failover and restart is in order and the pair is safe |
| Heartbeats.SlowPeerMakesTwoActive | src/zmq/bstarsrv.cpp:185-202 | for every slack and delay that come to a heartbeat or more, a run on time with two active servers |
| Heartbeats.TimelyIsSafeWhen | src/zmq/bstarsrv.cpp:185-202 | so all runs on time are safe if and only if slack and delay come to less than a heartbeat |
| Heartbeats.StaleWordMakesTwoActive | src/zmq/bstarsrv.cpp:50-88 | a run in order, after which one restart out of order leads to two active servers without any client |

## Left out

- Overflow: integers are unbounded (`int`, `long`, `int64_t`, `size_t` counts and expiries in the source). The dot numbers are non-negative, as nextDot makes them.
- ORMaps.ORMap.Join: the other map shares no object with this one; JoinSelf is the case in which it is this one.
- ShoppingLists.ShoppingList.Join: the other list shares no object with this one; JoinSelf is the case in which it is this one.
- Contexts.DotContext.JoinClock: for another context; the caller has already returned when it is this one.
- ORMaps.ORMap.Put: an insertion with a counter of its own context, as from_json makes it; copy constructors and copy assignment of maps, kernels and lists are not part of this model.
- ShoppingLists.ShoppingList.FromJson: trees without fractions and booleans; a context without its two members, and a cloud entry with fewer than two elements, are undefined in the source, and negative dot numbers are outside. JSON text is not parsed or printed.
- ShoppingLists.ShoppingList.GetQuantity: a lookup by key where the source searches the entries one by one.
- Counters.CausalCounter.Gather: one loop for the identical loops of inc and dec.
- DotKernel::remove by value, allValues, equality operators, toJson of counters and stream output.
- Store.Worker.CreateList: the payload arrives as a tree, as FromJson takes it.
- Store.Worker.UpdateList: the payload arrives as a tree, as FromJson takes it; frames, replies' texts and publication to subscribers are not modelled.
- Messages.Zmsg.PopFront: on a message with a part; popping an empty message is undefined in the source. The 33-byte and 17-byte forms of UUID frames are not converted.
- Brokers.Broker: messages are values, so copying and deleting message objects is not modelled; the order in which expired workers are deleted is arbitrary because the source orders them by address.
- Brokers.Broker.Process: the heartbeats sent to workers and clients when the timer fires, and the forwarding of published lists, are left out.
- Brokers.Broker.WorkerProcess: for the commands workers send with the frames they need; an unknown command from an unknown worker, and WORKER_OCCUPIED from or about an unregistered worker, are outside. A service's worker count starts at 0.
- WorkerApi.Worker.Receive: for messages that pass the source's assertions; liveness countdown, reconnection and timed heartbeats are left out.
- HashRings.ConsistentHashing: removeServer, which nothing calls, and virtual nodes, which are commented out.
- HashRings.ConsistentHashing.DistributeWork: that every target receives the request is not claimed; the worker's loop stops when it meets itself.
- RingJoins.AlwaysCompleteWhen: joins one after the other, each with all its broadcasts delivered; concurrent joins are not modelled. A worker is known by one address: a contact given under another name of a member, such as 127.0.0.1 for localhost, counts as no join, although the code would join and keep two sockets to it. A worker that names itself as its contact counts as no join either.
- Clone.ClientFollows: the subscription loses nothing and keeps order, and is opened before the snapshot is asked for; interrupted receives are not modelled.
- WorkerApi.RepliesFindTheirClient: for workers with an identity that is not empty, as the router's are.
- BinaryStar.PairIsSafe: states are sent and heard at any time, in order, or lost; what a server has sent outlives it, what was on its way to it does not.
- Heartbeats.TimelyPairIsSafe: one clock for both servers; nothing is lost on the way to a server that is up.
- ZeroMQ sockets, polling, threads, signals, logging, files and UUIDs; the client's menu; old_database.cpp, old_shopping_list.h, gset.h and the commented-out CRDT headers; the other ZeroMQ examples.
