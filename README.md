# dora daemon and drop stream, modelled in Dafny

This project models two parts of the dora dataflow framework.

**The dora daemon's event loop** (`binaries/daemon/src/main.rs`). The daemon keeps four pieces of state:

- an HLC;
- the shared-memory regions that nodes have reserved but not sent yet (`uninit_shared_memory`);
- the regions that have been sent out (`sent_out_shared_memory`);
- the running dataflows. Each dataflow holds its subscriber sinks, its node tasks and its output → inputs routing table. Each routing table value is a `BTreeSet`.

The loop dispatches one event at a time:

- a coordinator `Spawn` registers a dataflow, inverts every node's `User` input mappings into the routing table, and spawns the nodes;
- a node's `Subscribe` registers the node's event sink;
- `PrepareOutputMessage` reserves a fresh region;
- `SendOutMessage` publishes a reserved region, sends one `Input` event to every subscribed receiver of the output, and prunes receivers whose sink is closed;
- `Stopped` only replies.

Any handler error ends the loop.

**The node-side drop stream** (`apis/rust/node/src/node/drop_stream.rs`):

- the `init_on_channel` handshake (register, then `SubscribeDrop`);
- the `drop_stream_loop` pump. It long-polls `NextFinishedDropTokens`:
  - it forwards the tokens of each batch in order;
  - it retries after unexpected replies and transport errors;
  - it stops on an empty batch or when a forward fails.

Layout:

- `ids.dfy`: ids, and the lexicographic order of `String` pairs that a `BTreeSet<(NodeId, DataId)>` uses.
- `ordered_set.dfy`: a `BTreeSet` as a strictly ascending sequence, with `Insert`.
- `messages.dfy`: events, replies, errors, and the oracles that replace foreign calls.
- `fan_out.dfy`: the send-out loop and the removal loop after it, both as methods; the send-out loop's specification function; and a reference filter to compare it with.
- `transitions.dfy`: one pure function per handler over a `DaemonState` record, and the lemmas about them.
- `daemon.dfy`: the `Daemon` class. Its fields are updated in place by handler methods with the source's loops. Each method is proved to produce exactly the new state, result, reply and sent events that its transition function gives.
- `drop_stream.dfy`: the handshake and the pump as methods, the pump's specification function, and its properties.
- `scenarios.dfy`: two end-to-end runs. In the first, node A's output reaches node B. In the second, B's sink is gone by the time A sends.

Foreign calls become parameters:

- `spawn::spawn_node` is a map from node id to task handle. A node that is absent fails to spawn.
- `ShmemConf::create` is `Allocated(osId)` or `AllocFailed`.
- Delivery of the oneshot reply to `PrepareOutputMessage` is a boolean.
- A flume sender is a `SinkId`; the set of closed sinks says which sends fail.
- The HLC is a counter. Each `new_timestamp` is the next number.
- The answers to the pump's successive requests are a finite sequence. The application-side receiver takes a given number of tokens (or all of them) before it is dropped.

Behaviour of the code worth knowing:

- `SendOutMessage` with an unknown region id, or on an unknown dataflow, returns `Err` from the handler. The `?` at `main.rs:111-112` turns that into the end of the event loop; the error is not reported to the requesting node. `PrepareOutputMessage` with a failed allocation ends the loop the same way.
- `SendOutMessage` takes the reservation out before it looks up the dataflow. On an unknown dataflow the reservation is lost.
- `Stopped` only replies `Ok`. It removes no registry entry.
- Published regions are never freed, and nothing counts acknowledgments. A region stays in `sent_out_shared_memory` even when it was sent to nobody.
- Subscribing on an unknown dataflow is not a handler error. The error goes into the reply only.

## Model

| member | source | states |
|---|---|---|
| OrderedSet.Insert | binaries/daemon/src/main.rs:137-141 | `BTreeSet::insert`: the result holds the old elements plus the new one, stays strictly ascending, and is unchanged when the element was already there |
| Routing.SendToReceivers | binaries/daemon/src/main.rs:210-226 | the loop over the routing set ends with exactly the deliveries, closed nodes and HLC value that `FanOut` gives |
| Routing.RemoveClosed | binaries/daemon/src/main.rs:227-229 | the removal loop keeps exactly the channels of the nodes not collected as closed, each with its sink unchanged |
| Routing.FanOutTargets | binaries/daemon/src/main.rs:210-226 | the send-out loop delivers to exactly the receivers that have an open subscribe channel, in routing-set order, which the reference filter `OpenReceivers` defines independently |
| Routing.OpenReceiversMembership | binaries/daemon/src/main.rs:212-213 | a receiver gets an event iff it is in the routing set and its node has an open sink |
| Routing.OpenReceiversSorted | binaries/daemon/src/main.rs:204-212 | the receivers reached keep the ascending (NodeId, DataId) order of the BTreeSet |
| Routing.FanOutClosed | binaries/daemon/src/main.rs:211-224 | a node is collected as closed iff it has a subscribe channel, that channel is closed, and some routing-set entry names it |
| Routing.FanOutStamps | binaries/daemon/src/main.rs:213-219 | every event carries the region id and goes to the receiver's own sink; timestamps are fresh (after the clock at entry), strictly increasing, and the clock after the loop is the entry clock plus one per delivery and one per closed node collected |
| Routing.FanOutClock | binaries/daemon/src/main.rs:212-219 | the clock advances exactly once per routing-set entry whose node has a subscribe channel, counted by the reference function `Subscribed`, failed sends included |
| Transitions.AddInputsMembership | binaries/daemon/src/main.rs:135-142 | after one node's inputs are recorded, an input reads an output iff it did before or the node declares a `User` mapping from that output for it; `Timer` mappings add nothing |
| Transitions.AllInputsMembership | binaries/daemon/src/main.rs:134-143 | after all nodes' inputs are recorded, the routing set of an output is exactly the old set plus the declared `User` readers of it |
| Transitions.AddInputsSorted | binaries/daemon/src/main.rs:137-141 | recording inputs keeps every routing set strictly ascending |
| Transitions.AllInputsSorted | binaries/daemon/src/main.rs:134-143 | recording all nodes' inputs keeps every routing set strictly ascending |
| Transitions.SpawnNodesKeepsChannels | binaries/daemon/src/main.rs:134-149 | spawning never touches a dataflow's subscribe channels |
| Transitions.SpawnNodesSucceeds | binaries/daemon/src/main.rs:134-149 | the node loop succeeds iff every node spawns; then the routing table is the full inversion of all declared inputs |
| Transitions.SpawnNodesTasks | binaries/daemon/src/main.rs:145-148 | after a successful node loop every node has the task it was spawned with, and no other task was added |
| Transitions.SpawnNodesFails | binaries/daemon/src/main.rs:144-148 | a failed spawn stops at the first node that does not spawn, with that node's inputs and every earlier node's inputs recorded |
| Transitions.SpawnDuplicateFails | binaries/daemon/src/main.rs:126-133 | spawning an id that is already running fails with `AlreadyRunning` and leaves the whole state unchanged |
| Transitions.SpawnNewDataflow | binaries/daemon/src/main.rs:125-153 | a new id is registered even when a node then fails; other dataflows, regions and clock are untouched; success iff all nodes spawn; on success, an input is in a routing set iff some node declares it; on failure, the error names a node that did not spawn |
| Transitions.SpawnedSetsHaveNoDuplicates | binaries/daemon/src/main.rs:253 | an input appears at most once in a routing set, however often it is declared |
| Transitions.SubscribeEffect | binaries/daemon/src/main.rs:165-174 | on a running dataflow, the node's sink is inserted or replaced and the reply is Ok; otherwise the reply is the `NoRunningDataflow` error and nothing changes; the handler never fails |
| Transitions.PrepareEffect | binaries/daemon/src/main.rs:175-191 | an allocation failure is a handler error that changes nothing; otherwise the fresh id is reserved for the output and returned; if the reply is lost, the reservation is removed and, for a fresh id, the state is as before |
| Transitions.PrepareTwiceDistinct | binaries/daemon/src/main.rs:180-182 | two preparations under distinct ids keep both reservations |
| Transitions.SendOutUnknownRegion | binaries/daemon/src/main.rs:193-196 | a send-out of an unreserved id is an `InvalidSharedMemoryId` error and changes nothing |
| Transitions.SendOutUnknownDataflow | binaries/daemon/src/main.rs:193-201 | a send-out on an unknown dataflow is a `NoRunningDataflow` error, after the reservation has already been removed |
| Transitions.SendOutDelivers | binaries/daemon/src/main.rs:192-238 | a send-out moves the region from reserved to published and delivers exactly to the open subscribed receivers, in ascending order, with fresh increasing timestamps and the region id, and the clock advances by exactly the number of subscribed routing-set entries; it prunes exactly the closed receivers, keeps mappings, tasks and other dataflows, and replies Ok |
| Transitions.SendOutToNobody | binaries/daemon/src/main.rs:203-208 | an output with no routing entry publishes the region, sends nothing, keeps the clock and replies Ok |
| Transitions.StoppedEffect | binaries/daemon/src/main.rs:239-243 | `Stopped` replies Ok and changes nothing |
| Transitions.SpawnPreservesWellFormed | binaries/daemon/src/main.rs:125-153 | spawning keeps every routing set strictly ascending, also when a node fails to spawn part-way |
| Transitions.StepPreservesWellFormed | binaries/daemon/src/main.rs:95-114 | every event keeps every routing set a strictly ascending set |
| Transitions.StepClockMonotone | binaries/daemon/src/main.rs:95-114 | no event moves the HLC back, so a send-out's timestamps are newer than every timestamp issued before it |
| Transitions.RunClockMonotone | binaries/daemon/src/main.rs:95-117 | over a whole run of the event loop the HLC never goes back |
| Transitions.StepRegionLifecycle | binaries/daemon/src/main.rs:181-235 | with fresh region ids, a region is never both reserved and published; a newly published region was reserved just before; published regions are never removed |
| Transitions.RunExtend | binaries/daemon/src/main.rs:95-115 | one more event after a failed run is never handled; after an Ok run it is handled in the state that run left |
| Transitions.RunStopsAtFirstError | binaries/daemon/src/main.rs:95-117 | an Ok run handled every event; a failed run handled every event before its last one with result Ok, and its error and state are exactly those the last event's handler returned, so the first handler error ends the loop |
| Transitions.RunOkEveryStep | binaries/daemon/src/main.rs:104-112 | in an Ok run every handler called returned Ok |
| Transitions.RunPreservesWellFormed | binaries/daemon/src/main.rs:95-117 | the event loop keeps every routing set a strictly ascending set |
| DaemonMain.Daemon.constructor | binaries/daemon/src/main.rs:75-81 | the daemon starts with the clock at zero and with no reservations, no published regions and no dataflows |
| DaemonMain.Daemon.HandleCoordinatorEvent | binaries/daemon/src/main.rs:120-155 | the nested loops over nodes and inputs leave exactly the state and the result that `SpawnStep` gives |
| DaemonMain.Daemon.Subscribe | binaries/daemon/src/main.rs:165-174 | the fields, the result and the reply are those of `SubscribeStep`, and the class invariant is kept |
| DaemonMain.Daemon.PrepareOutputMessage | binaries/daemon/src/main.rs:175-191 | the fields, the result and the reply are those of `PrepareStep`, and the class invariant is kept |
| DaemonMain.Daemon.SendOutMessage | binaries/daemon/src/main.rs:192-238 | with the send-out loop and the removal loop, the handler leaves exactly the state, result, reply and deliveries that `SendOutStep` gives, and the class invariant is kept |
| DaemonMain.Daemon.Stopped | binaries/daemon/src/main.rs:239-243 | replies Ok, changes no field and does not fail |
| DaemonMain.Daemon.HandleNodeEvent | binaries/daemon/src/main.rs:157-246 | dispatches on the node event and ends in the outcome that `NodeStep` gives, keeping routing sets sorted |
| DaemonMain.Daemon.Handle | binaries/daemon/src/main.rs:96-114 | one iteration of the loop body: connections and connect errors change nothing; other events end in the outcome of `Step` |
| DaemonMain.Daemon.RunInner | binaries/daemon/src/main.rs:86-118 | the loop over the events ends with the state, result and count of handled events that `Run` gives, so it stops at the first handler error |
| DaemonMain.SpawnNodesTail | binaries/daemon/src/main.rs:144-147 | once a node fails to spawn, later nodes change nothing |
| DropStream.Forward | apis/rust/node/src/node/drop_stream.rs:102-114 | one batch is forwarded token by token in batch order; it succeeds iff the receiver takes the whole batch, and otherwise exactly the tokens it took were sent |
| DropStream.DropStreamLoop | apis/rust/node/src/node/drop_stream.rs:82-116 | the polling loop forwards exactly the tokens, issues exactly the requests and exits for exactly the reason that `Pump` gives |
| DropStream.InitOnChannel | apis/rust/node/src/node/drop_stream.rs:41-70 | the pump starts iff registration succeeds and the subscribe reply is exactly `Result(Ok(()))`; registration errors, request errors and `Result(Err)` replies each give their own error |
| DropStream.PumpStops | apis/rust/node/src/node/drop_stream.rs:83-115 | an empty batch is the last request and no earlier answer was one; a failed forward happens in a non-empty batch that is the last request; the pump stops with answers left only after an empty batch or a failed forward |
| DropStream.PumpForwardsInOrder | apis/rust/node/src/node/drop_stream.rs:102-114 | tokens are forwarded batch after batch in batch order; a failed forward happens in the last batch requested, after the receiver took every earlier batch, and exactly the tokens it took were forwarded, leaving the rest of that batch unsent and making no further request |
| DropStream.FailedForwardIsLastRequest | apis/rust/node/src/node/drop_stream.rs:105-111 | a receiver that takes one token of the batch [7, 8] gets 7, and the pump stops after that single request although another answer is available |
| DropStream.PumpRetries | apis/rust/node/src/node/drop_stream.rs:91-100 | an unexpected reply or a transport error forwards nothing and is followed by another request |
| Scenarios.PreparedState | binaries/daemon/src/main.rs:125-191 | after spawning A and B (B reads A's `out1`), subscribing both and preparing `r1`, the region is reserved and the routing table is {(A, out1) ↦ [(B, in1)]} |
| Scenarios.ScenarioDelivers | binaries/daemon/src/main.rs:192-238 | A's send-out of `r1` delivers exactly one event, for `in1` with timestamp 1, to B's sink, and publishes `r1` |
| Scenarios.ScenarioReceiverGone | binaries/daemon/src/main.rs:211-237 | when B's sink is closed, the send-out still succeeds, delivers nothing, removes B's channel and keeps `r1` published |

## Left out

- Routing.FanOut: a sink is open or closed for the whole send-out. A receiver dropped between two sends of one fan-out is not modelled. In the source a node that reads an output on two inputs could get the first event and then be pruned after the second send fails; in the model a node is either delivered to or pruned, never both.

- Process start-up, tracing, the coordinator connection, the TCP listener, the stream merge and `tokio::spawn` of connection handlers are I/O and concurrency. The loop is modelled over a finite sequence of already-merged events.
- `NewConnection` and `ConnectError` are modelled as steps that change nothing. The connection handler they start is not part of this model.
- The `port` field is left out. It is only passed to `spawn_node`, which is an oracle here.
- `spawn::spawn_node`, `ShmemConf`, the `Shmem` handle, the raw-slice construction, flume and oneshot channels, and HLC internals are foreign code. They are replaced by the parameters described above. A region is its OS id and length.
- Hash-map iteration order in `Spawn` is taken to be the order of the node sequence the caller passes.
- Drop-token acknowledgment counting and the freeing of published regions are not in the code, so they are not modelled.
- `DropStream::init` transport selection, the pump thread, `Deref` and `DropStreamThreadHandle` with its timed join are threads, timeouts and logging.
- DropStream.DropStreamLoop: the source polls forever while it gets errors or unexpected replies. The model stops with `Exhausted` when the finite answer sequence runs out.
- DropStream.DropStreamLoop: a receiver that stays alive but never takes a token blocks the source's rendezvous send forever. The model only has receivers that either take tokens or are dropped.
- DaemonMain.Daemon.Stopped: the reply may fail to reach the node. The source ignores that, and so does the model.
- Daemon reply variants other than `Result` and `NextDropEvents` are merged into one `OtherReply` variant, because the pump treats them all alike.
