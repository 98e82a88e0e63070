/**
 * The messages the daemon receives and sends, its errors, and the answers
 * of the collaborators it calls but that are not part of this model
 * (node spawning, shared-memory allocation, oneshot reply channels, the
 * nodes' event sinks).
 */
module Messages {
  import opened Ids
  import opened Wrappers

  /** Where a node input takes its data from. Only `User` routes data between nodes. */
  datatype InputMapping =
    | User(source: NodeId, output: DataId)
    | Timer(intervalMillis: nat)

  /** What the daemon reads of a node's spawn parameters: its declared inputs, in iteration order. */
  datatype SpawnNodeParams = SpawnNodeParams(inputs: seq<(DataId, InputMapping)>)

  /** The coordinator's only command: run these nodes, in iteration order, as dataflow `dataflowId`. */
  datatype DaemonCoordinatorEvent =
    | Spawn(dataflowId: DataflowId, nodes: seq<(NodeId, SpawnNodeParams)>)

  datatype DaemonNodeEvent =
    | PrepareOutputMessage(outputId: DataId, len: nat)
    | SendOutMessage(id: RegionId)
    | Stopped
    | Subscribe(eventSender: SinkId)

  /** One item of the daemon's merged event stream. */
  datatype Event =
    | NewConnection(connection: nat)
    | ConnectError(message: string)
    | Node(dataflowId: DataflowId, nodeId: NodeId, event: DaemonNodeEvent)
    | Coordinator(command: DaemonCoordinatorEvent)

  /** The errors a handler returns; each one ends the daemon's event loop. */
  datatype DaemonError =
    | AlreadyRunning(dataflowId: DataflowId)
    | SpawnFailed(nodeId: NodeId)
    | AllocationFailed
    | InvalidSharedMemoryId(id: RegionId)
    | NoRunningDataflow(dataflowId: DataflowId)

  datatype ControlReply =
    | ReplyResult(result: Result<(), DaemonError>)
    | PreparedMessage(sharedMemoryId: RegionId)

  /** The event a receiving node gets: its input id, an HLC timestamp and the region holding the data. */
  datatype NodeEvent = Input(id: DataId, timestamp: nat, data: RegionId)

  /** One event handed to a node's event sink. */
  datatype Delivery = Delivery(sink: SinkId, receiver: NodeId, event: NodeEvent)

  /** What `ShmemConf::create` answers. */
  datatype AllocOutcome = Allocated(osId: RegionId) | AllocFailed

  /**
   * The answers of the outside world while one event is handled:
   * the task of every node that `spawn_node` starts (a node missing here
   * fails to spawn), the allocator's answer, whether the oneshot reply
   * reaches the requesting node, and which event sinks have a dropped
   * receiver.
   */
  datatype Oracle = Oracle(
    spawned: map<NodeId, TaskHandle>,
    allocation: AllocOutcome,
    replyDelivered: bool,
    closedSinks: set<SinkId>)
}
