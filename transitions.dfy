/**
 * The daemon's state and what handling one event does to it, as pure
 * functions over a state record. The `Daemon` class implements each of
 * them with the loops of the daemon's handlers; the lemmas here state
 * what the handlers promise.
 */
module Transitions {
  import opened Ids
  import opened OrderedSet
  import opened Wrappers
  import opened Messages
  import opened Routing

  /** The output -> inputs routing table of a dataflow; every value is a BTreeSet. */
  type Mappings = map<OutputId, seq<InputId>>

  datatype RunningDataflow = RunningDataflow(
    subscribeChannels: map<NodeId, SinkId>,
    nodeTasks: map<NodeId, TaskHandle>,
    mappings: Mappings)

  const EmptyDataflow := RunningDataflow(map[], map[], map[])

  /** A shared-memory region, known by its OS id, of `len` bytes. */
  datatype Shmem = Shmem(osId: RegionId, len: nat)

  datatype DaemonState = DaemonState(
    clock: nat,
    uninitSharedMemory: map<RegionId, (DataId, Shmem)>,
    sentOutSharedMemory: map<RegionId, Shmem>,
    running: map<DataflowId, RunningDataflow>)

  /** What handling one event gives: the new state, the handler's result, the reply sent back and the events fanned out. */
  datatype Outcome = Outcome(
    state: DaemonState,
    result: Result<(), DaemonError>,
    reply: Option<ControlReply>,
    sent: seq<Delivery>)

  ghost predicate SortedMappings(m: Mappings)
  {
    forall o :: o in m ==> StrictlySorted(m[o])
  }

  /** Every routing set of every running dataflow is a BTreeSet. */
  ghost predicate WellFormed(s: DaemonState)
  {
    forall d :: d in s.running ==> SortedMappings(s.running[d].mappings)
  }

  /** The receivers of an output; an output nobody reads has the empty set. */
  function Receivers(m: Mappings, output: OutputId): seq<InputId>
  {
    if output in m then m[output] else []
  }

  // ---------------------------------------------------------------- Spawn

  /** Records one declared input of `node` in the routing table, if it is a `User` mapping. */
  function AddInput(m: Mappings, node: NodeId, input: (DataId, InputMapping)): Mappings
  {
    match input.1
    case User(source, output) => m[(source, output) := Insert(Receivers(m, (source, output)), (node, input.0))]
    case Timer(_) => m
  }

  /** The inner loop of Spawn: all declared inputs of one node, in order. */
  function AddInputs(m: Mappings, node: NodeId, inputs: seq<(DataId, InputMapping)>): Mappings
    decreases |inputs|
  {
    if |inputs| == 0 then m
    else AddInput(AddInputs(m, node, inputs[..|inputs| - 1]), node, inputs[|inputs| - 1])
  }

  /** The routing table built from the inputs of all `nodes`. */
  function AllInputs(m: Mappings, nodes: seq<(NodeId, SpawnNodeParams)>): Mappings
    decreases |nodes|
  {
    if |nodes| == 0 then m
    else
      var (nodeId, params) := nodes[|nodes| - 1];
      AddInputs(AllInputs(m, nodes[..|nodes| - 1]), nodeId, params.inputs)
  }

  /**
   * The outer loop of Spawn: a node's inputs are recorded, then the node is
   * spawned; the first node that fails to spawn stops the loop.
   */
  function SpawnNodes(df: RunningDataflow, nodes: seq<(NodeId, SpawnNodeParams)>,
                      spawned: map<NodeId, TaskHandle>): (RunningDataflow, Result<(), DaemonError>)
    decreases |nodes|
  {
    if |nodes| == 0 then (df, Ok(()))
    else
      var (prev, result) := SpawnNodes(df, nodes[..|nodes| - 1], spawned);
      if result.Err? then (prev, result)
      else
        var (nodeId, params) := nodes[|nodes| - 1];
        var withInputs := prev.(mappings := AddInputs(prev.mappings, nodeId, params.inputs));
        if nodeId in spawned then (withInputs.(nodeTasks := withInputs.nodeTasks[nodeId := spawned[nodeId]]), Ok(()))
        else (withInputs, Err(SpawnFailed(nodeId)))
  }

  function SpawnStep(s: DaemonState, dataflowId: DataflowId, nodes: seq<(NodeId, SpawnNodeParams)>,
                     spawned: map<NodeId, TaskHandle>): Outcome
  {
    if dataflowId in s.running then Outcome(s, Err(AlreadyRunning(dataflowId)), None, [])
    else
      var (df, result) := SpawnNodes(EmptyDataflow, nodes, spawned);
      Outcome(s.(running := s.running[dataflowId := df]), result, None, [])
  }

  // ------------------------------------------------------------ node events

  function SubscribeStep(s: DaemonState, dataflowId: DataflowId, nodeId: NodeId, sink: SinkId): Outcome
  {
    if dataflowId in s.running then
      var df := s.running[dataflowId];
      var df' := df.(subscribeChannels := df.subscribeChannels[nodeId := sink]);
      Outcome(s.(running := s.running[dataflowId := df']), Ok(()), Some(ReplyResult(Ok(()))), [])
    else
      Outcome(s, Ok(()), Some(ReplyResult(Err(NoRunningDataflow(dataflowId)))), [])
  }

  function PrepareStep(s: DaemonState, outputId: DataId, len: nat, allocation: AllocOutcome,
                       replyDelivered: bool): Outcome
  {
    match allocation
    case AllocFailed => Outcome(s, Err(AllocationFailed), None, [])
    case Allocated(id) =>
      var reserved := s.uninitSharedMemory[id := (outputId, Shmem(id, len))];
      var uninit := if replyDelivered then reserved else reserved - {id};
      Outcome(s.(uninitSharedMemory := uninit), Ok(()), Some(PreparedMessage(id)), [])
  }

  /**
   * The reservation is taken out before the dataflow is looked up, so a
   * send-out on an unknown dataflow still loses the reservation.
   */
  function SendOutStep(s: DaemonState, dataflowId: DataflowId, nodeId: NodeId, id: RegionId,
                       closedSinks: set<SinkId>): Outcome
  {
    if id !in s.uninitSharedMemory then Outcome(s, Err(InvalidSharedMemoryId(id)), None, [])
    else
      var (outputId, memory) := s.uninitSharedMemory[id];
      var taken := s.(uninitSharedMemory := s.uninitSharedMemory - {id});
      if dataflowId !in s.running then Outcome(taken, Err(NoRunningDataflow(dataflowId)), None, [])
      else
        var df := s.running[dataflowId];
        var fan := FanOut(Receivers(df.mappings, (nodeId, outputId)), df.subscribeChannels, closedSinks, id, s.clock);
        var channels := df.subscribeChannels - (set n | n in fan.closed);
        var df' := df.(subscribeChannels := channels);
        var s' := taken.(clock := fan.clock,
                         running := s.running[dataflowId := df'],
                         sentOutSharedMemory := s.sentOutSharedMemory[id := memory]);
        Outcome(s', Ok(()), Some(ReplyResult(Ok(()))), fan.sent)
  }

  function StoppedStep(s: DaemonState): Outcome
  {
    Outcome(s, Ok(()), Some(ReplyResult(Ok(()))), [])
  }

  function NodeStep(s: DaemonState, dataflowId: DataflowId, nodeId: NodeId, event: DaemonNodeEvent,
                    oracle: Oracle): Outcome
  {
    match event
    case Subscribe(sink) => SubscribeStep(s, dataflowId, nodeId, sink)
    case PrepareOutputMessage(outputId, len) =>
      PrepareStep(s, outputId, len, oracle.allocation, oracle.replyDelivered)
    case SendOutMessage(id) => SendOutStep(s, dataflowId, nodeId, id, oracle.closedSinks)
    case Stopped => StoppedStep(s)
  }

  /** One iteration of the event loop. New connections and connect errors leave the state alone. */
  function Step(s: DaemonState, event: Event, oracle: Oracle): Outcome
  {
    match event
    case NewConnection(_) => Outcome(s, Ok(()), None, [])
    case ConnectError(_) => Outcome(s, Ok(()), None, [])
    case Coordinator(Spawn(dataflowId, nodes)) => SpawnStep(s, dataflowId, nodes, oracle.spawned)
    case Node(dataflowId, nodeId, nodeEvent) => NodeStep(s, dataflowId, nodeId, nodeEvent, oracle)
  }

  datatype RunResult = RunResult(state: DaemonState, result: Result<(), DaemonError>, handled: nat)

  /** The event loop over a finite stream: the first handler error ends it. */
  function Run(s: DaemonState, steps: seq<(Event, Oracle)>): RunResult
    decreases |steps|
  {
    if |steps| == 0 then RunResult(s, Ok(()), 0)
    else
      var o := Step(s, steps[0].0, steps[0].1);
      if o.result.Err? then RunResult(o.state, o.result, 1)
      else
        var r := Run(o.state, steps[1..]);
        r.(handled := r.handled + 1)
  }

  // ------------------------------------------------------------- properties

  /** `x` is declared by some node of `nodes` as reading output `out`. */
  ghost predicate Declares(nodes: seq<(NodeId, SpawnNodeParams)>, out: OutputId, x: InputId)
  {
    exists k, j :: 0 <= k < |nodes| && 0 <= j < |nodes[k].1.inputs| &&
      nodes[k].0 == x.0 && nodes[k].1.inputs[j] == (x.1, User(out.0, out.1))
  }

  lemma {:induction false} AddInputsMembership(m: Mappings, node: NodeId, inputs: seq<(DataId, InputMapping)>,
                                               out: OutputId, x: InputId)
    ensures x in Receivers(AddInputs(m, node, inputs), out)
        <==> x in Receivers(m, out) ||
             (x.0 == node && exists j :: 0 <= j < |inputs| && inputs[j] == (x.1, User(out.0, out.1)))
    decreases |inputs|
  {
    if |inputs| > 0 {
      var prefix := inputs[..|inputs| - 1];
      AddInputsMembership(m, node, prefix, out, x);
      if exists j :: 0 <= j < |inputs| && inputs[j] == (x.1, User(out.0, out.1)) {
        var j :| 0 <= j < |inputs| && inputs[j] == (x.1, User(out.0, out.1));
        if j < |prefix| {
          assert prefix[j] == inputs[j];
        }
      }
      if exists j :: 0 <= j < |prefix| && prefix[j] == (x.1, User(out.0, out.1)) {
        var j :| 0 <= j < |prefix| && prefix[j] == (x.1, User(out.0, out.1));
        assert inputs[j] == prefix[j];
      }
    }
  }

  /**
   * After the inputs of `nodes` are inverted, `x` reads `out` iff it did
   * before or some node declares a `User` mapping from `out` for it.
   */
  lemma {:induction false} AllInputsMembership(m: Mappings, nodes: seq<(NodeId, SpawnNodeParams)>,
                                               out: OutputId, x: InputId)
    ensures x in Receivers(AllInputs(m, nodes), out) <==> x in Receivers(m, out) || Declares(nodes, out, x)
    decreases |nodes|
  {
    if |nodes| > 0 {
      var prefix := nodes[..|nodes| - 1];
      var (nodeId, params) := nodes[|nodes| - 1];
      AllInputsMembership(m, prefix, out, x);
      AddInputsMembership(AllInputs(m, prefix), nodeId, params.inputs, out, x);
      if Declares(nodes, out, x) {
        var k, j :| 0 <= k < |nodes| && 0 <= j < |nodes[k].1.inputs| &&
          nodes[k].0 == x.0 && nodes[k].1.inputs[j] == (x.1, User(out.0, out.1));
        if k < |prefix| {
          assert prefix[k] == nodes[k];
        }
      }
      if Declares(prefix, out, x) {
        var k, j :| 0 <= k < |prefix| && 0 <= j < |prefix[k].1.inputs| &&
          prefix[k].0 == x.0 && prefix[k].1.inputs[j] == (x.1, User(out.0, out.1));
        assert nodes[k] == prefix[k];
      }
      if x.0 == nodeId && exists j :: 0 <= j < |params.inputs| && params.inputs[j] == (x.1, User(out.0, out.1)) {
        var j :| 0 <= j < |params.inputs| && params.inputs[j] == (x.1, User(out.0, out.1));
        assert nodes[|nodes| - 1].1.inputs[j] == (x.1, User(out.0, out.1));
      }
    }
  }

  lemma {:induction false} AddInputsSorted(m: Mappings, node: NodeId, inputs: seq<(DataId, InputMapping)>)
    requires SortedMappings(m)
    ensures SortedMappings(AddInputs(m, node, inputs))
    decreases |inputs|
  {
    if |inputs| > 0 {
      AddInputsSorted(m, node, inputs[..|inputs| - 1]);
    }
  }

  lemma {:induction false} AllInputsSorted(m: Mappings, nodes: seq<(NodeId, SpawnNodeParams)>)
    requires SortedMappings(m)
    ensures SortedMappings(AllInputs(m, nodes))
    decreases |nodes|
  {
    if |nodes| > 0 {
      AllInputsSorted(m, nodes[..|nodes| - 1]);
      AddInputsSorted(AllInputs(m, nodes[..|nodes| - 1]), nodes[|nodes| - 1].0, nodes[|nodes| - 1].1.inputs);
    }
  }

  /** Spawning never touches the subscriptions of the dataflow. */
  lemma {:induction false} SpawnNodesKeepsChannels(df: RunningDataflow, nodes: seq<(NodeId, SpawnNodeParams)>,
                                                   spawned: map<NodeId, TaskHandle>)
    ensures SpawnNodes(df, nodes, spawned).0.subscribeChannels == df.subscribeChannels
    decreases |nodes|
  {
    if |nodes| > 0 {
      SpawnNodesKeepsChannels(df, nodes[..|nodes| - 1], spawned);
    }
  }

  /**
   * Spawning the nodes in order succeeds iff every node spawns; then the
   * routing table holds the inputs of all nodes.
   */
  lemma {:induction false} SpawnNodesSucceeds(df: RunningDataflow, nodes: seq<(NodeId, SpawnNodeParams)>,
                                              spawned: map<NodeId, TaskHandle>)
    ensures var (df', result) := SpawnNodes(df, nodes, spawned);
      && (result.Ok? <==> forall k :: 0 <= k < |nodes| ==> nodes[k].0 in spawned)
      && (result.Ok? ==> df'.mappings == AllInputs(df.mappings, nodes))
    decreases |nodes|
  {
    if |nodes| > 0 {
      var prefix := nodes[..|nodes| - 1];
      SpawnNodesSucceeds(df, prefix, spawned);
      assert forall k :: 0 <= k < |prefix| ==> nodes[k] == prefix[k];
    }
  }

  /** After a successful spawn every node has its own task, and only the nodes spawned were added. */
  lemma {:induction false} SpawnNodesTasks(df: RunningDataflow, nodes: seq<(NodeId, SpawnNodeParams)>,
                                           spawned: map<NodeId, TaskHandle>)
    ensures var (df', result) := SpawnNodes(df, nodes, spawned);
      result.Ok? ==>
        && (forall n :: n in df'.nodeTasks <==> n in df.nodeTasks || exists k :: 0 <= k < |nodes| && nodes[k].0 == n)
        && (forall k :: 0 <= k < |nodes| ==> nodes[k].0 in spawned && df'.nodeTasks[nodes[k].0] == spawned[nodes[k].0])
    decreases |nodes|
  {
    if |nodes| > 0 {
      var prefix := nodes[..|nodes| - 1];
      SpawnNodesTasks(df, prefix, spawned);
      var (df', result) := SpawnNodes(df, nodes, spawned);
      if result.Ok? {
        assert forall k :: 0 <= k < |prefix| ==> nodes[k] == prefix[k];
        forall n ensures n in df'.nodeTasks <==> n in df.nodeTasks || exists k :: 0 <= k < |nodes| && nodes[k].0 == n {
          if exists k :: 0 <= k < |nodes| && nodes[k].0 == n {
            var k :| 0 <= k < |nodes| && nodes[k].0 == n;
            if k < |prefix| {
              assert prefix[k].0 == n;
            }
          }
        }
      }
    }
  }

  /**
   * A failed spawn stops at the first node that does not spawn, after that
   * node's inputs were recorded.
   */
  lemma {:induction false} SpawnNodesFails(df: RunningDataflow, nodes: seq<(NodeId, SpawnNodeParams)>,
                                           spawned: map<NodeId, TaskHandle>)
    ensures var (df', result) := SpawnNodes(df, nodes, spawned);
      result.Err? ==> exists f :: FirstFailure(df, nodes, spawned, df', result, f)
    decreases |nodes|
  {
    if |nodes| > 0 {
      var prefix := nodes[..|nodes| - 1];
      SpawnNodesFails(df, prefix, spawned);
      var (prev, result) := SpawnNodes(df, prefix, spawned);
      var (df', result') := SpawnNodes(df, nodes, spawned);
      if result.Err? {
        var f :| FirstFailure(df, prefix, spawned, prev, result, f);
        assert prefix[..f + 1] == nodes[..f + 1];
        assert forall k :: 0 <= k <= f ==> nodes[k] == prefix[k];
        assert FirstFailure(df, nodes, spawned, df', result', f);
      } else if result'.Err? {
        SpawnNodesSucceeds(df, prefix, spawned);
        assert forall k :: 0 <= k < |prefix| ==> nodes[k] == prefix[k];
        assert nodes[..|nodes| - 1 + 1] == nodes;
        assert FirstFailure(df, nodes, spawned, df', result', |nodes| - 1);
      }
    }
  }

  /**
   * `nodes[f]` is the first node that did not spawn, the result names it,
   * and the routing table holds the inputs of the nodes up to and including it.
   */
  ghost predicate FirstFailure(df: RunningDataflow, nodes: seq<(NodeId, SpawnNodeParams)>, spawned: map<NodeId, TaskHandle>,
                               df': RunningDataflow, result: Result<(), DaemonError>, f: int)
  {
    && 0 <= f < |nodes| && nodes[f].0 !in spawned
    && (forall k :: 0 <= k < f ==> nodes[k].0 in spawned)
    && result == Err(SpawnFailed(nodes[f].0))
    && df'.mappings == AllInputs(df.mappings, nodes[..f + 1])
  }

  /** Spawning an id that is already running fails and changes nothing. */
  lemma SpawnDuplicateFails(s: DaemonState, dataflowId: DataflowId, nodes: seq<(NodeId, SpawnNodeParams)>,
                            spawned: map<NodeId, TaskHandle>)
    requires dataflowId in s.running
    ensures SpawnStep(s, dataflowId, nodes, spawned) == Outcome(s, Err(AlreadyRunning(dataflowId)), None, [])
  {
  }

  /**
   * Spawning a new id: the dataflow is registered (even if a node then
   * fails to spawn) with no subscriptions; on success its routing table
   * holds exactly the declared `User` mappings, inverted, and every node
   * has its task; other dataflows, the regions and the clock are unchanged.
   */
  lemma SpawnNewDataflow(s: DaemonState, dataflowId: DataflowId, nodes: seq<(NodeId, SpawnNodeParams)>,
                         spawned: map<NodeId, TaskHandle>)
    requires dataflowId !in s.running
    ensures var o := SpawnStep(s, dataflowId, nodes, spawned);
      && o.reply == None && o.sent == []
      && o.state.clock == s.clock
      && o.state.uninitSharedMemory == s.uninitSharedMemory
      && o.state.sentOutSharedMemory == s.sentOutSharedMemory
      && o.state.running.Keys == s.running.Keys + {dataflowId}
      && (forall d :: d in s.running ==> o.state.running[d] == s.running[d])
      && o.state.running[dataflowId].subscribeChannels == map[]
      && (o.result.Ok? <==> forall k :: 0 <= k < |nodes| ==> nodes[k].0 in spawned)
      && (o.result.Ok? ==>
            && (forall out, x :: x in Receivers(o.state.running[dataflowId].mappings, out) <==> Declares(nodes, out, x))
            && (forall n :: n in o.state.running[dataflowId].nodeTasks <==> exists k :: 0 <= k < |nodes| && nodes[k].0 == n)
            && (forall k :: 0 <= k < |nodes| ==> o.state.running[dataflowId].nodeTasks[nodes[k].0] == spawned[nodes[k].0]))
      && (o.result.Err? ==> exists k :: 0 <= k < |nodes| && o.result == Err(SpawnFailed(nodes[k].0)) && nodes[k].0 !in spawned)
  {
    SpawnNodesKeepsChannels(EmptyDataflow, nodes, spawned);
    SpawnNodesSucceeds(EmptyDataflow, nodes, spawned);
    SpawnNodesTasks(EmptyDataflow, nodes, spawned);
    SpawnNodesFails(EmptyDataflow, nodes, spawned);
    var (df, result) := SpawnNodes(EmptyDataflow, nodes, spawned);
    if result.Ok? {
      forall out, x ensures x in Receivers(df.mappings, out) <==> Declares(nodes, out, x) {
        AllInputsMembership(map[], nodes, out, x);
      }
    }
  }

  /** A routing set never holds the same input twice, whatever the inputs declared. */
  lemma SpawnedSetsHaveNoDuplicates(m: Mappings, nodes: seq<(NodeId, SpawnNodeParams)>, out: OutputId,
                                    i: int, j: int)
    requires SortedMappings(m)
    requires 0 <= i < |Receivers(AllInputs(m, nodes), out)| && 0 <= j < |Receivers(AllInputs(m, nodes), out)|
    requires Receivers(AllInputs(m, nodes), out)[i] == Receivers(AllInputs(m, nodes), out)[j]
    ensures i == j
  {
    AllInputsSorted(m, nodes);
    SortedHasNoDuplicates(Receivers(AllInputs(m, nodes), out), i, j);
  }

  /**
   * Subscribe registers (or replaces) the node's sink iff the dataflow is
   * running, and says so in the reply; it never creates a dataflow and
   * never ends the event loop.
   */
  lemma SubscribeEffect(s: DaemonState, dataflowId: DataflowId, nodeId: NodeId, sink: SinkId)
    ensures var o := SubscribeStep(s, dataflowId, nodeId, sink);
      && o.result == Ok(())
      && o.state.running.Keys == s.running.Keys
      && (o.reply == Some(ReplyResult(Ok(()))) <==> dataflowId in s.running)
      && (dataflowId in s.running ==>
            && o.state.running[dataflowId].subscribeChannels == s.running[dataflowId].subscribeChannels[nodeId := sink]
            && o.state.running[dataflowId].mappings == s.running[dataflowId].mappings
            && o.state.running[dataflowId].nodeTasks == s.running[dataflowId].nodeTasks
            && o.state == s.(running := o.state.running)
            && (forall d :: d in s.running && d != dataflowId ==> o.state.running[d] == s.running[d]))
      && (dataflowId !in s.running ==>
            o.state == s && o.reply == Some(ReplyResult(Err(NoRunningDataflow(dataflowId)))))
  {
  }

  /**
   * A prepared region is reserved for `outputId` under its fresh id, and
   * the id is returned; if the reply cannot be delivered, the reservation
   * is dropped again and the daemon is as it was. An allocation failure is
   * a handler error and changes nothing.
   */
  lemma PrepareEffect(s: DaemonState, outputId: DataId, len: nat, allocation: AllocOutcome, replyDelivered: bool)
    ensures var o := PrepareStep(s, outputId, len, allocation, replyDelivered);
      && o.sent == []
      && (allocation == AllocFailed ==> o.state == s && o.result == Err(AllocationFailed) && o.reply == None)
      && (allocation.Allocated? ==>
            && o.result == Ok(())
            && o.reply == Some(PreparedMessage(allocation.osId))
            && o.state == s.(uninitSharedMemory := o.state.uninitSharedMemory)
            && (replyDelivered ==> o.state.uninitSharedMemory[allocation.osId] == (outputId, Shmem(allocation.osId, len)))
            && (forall id :: id != allocation.osId ==>
                  (id in o.state.uninitSharedMemory <==> id in s.uninitSharedMemory) &&
                  (id in s.uninitSharedMemory ==> o.state.uninitSharedMemory[id] == s.uninitSharedMemory[id]))
            && (!replyDelivered && allocation.osId !in s.uninitSharedMemory ==> o.state == s))
  {
  }

  /** Two preparations with distinct fresh ids leave two independent reservations. */
  lemma PrepareTwiceDistinct(s: DaemonState, out1: DataId, len1: nat, id1: RegionId,
                             out2: DataId, len2: nat, id2: RegionId)
    requires id1 != id2
    ensures var s1 := PrepareStep(s, out1, len1, Allocated(id1), true).state;
      var s2 := PrepareStep(s1, out2, len2, Allocated(id2), true).state;
      && s2.uninitSharedMemory[id1] == (out1, Shmem(id1, len1))
      && s2.uninitSharedMemory[id2] == (out2, Shmem(id2, len2))
  {
  }

  /** A send-out of a region that is not reserved is a handler error and changes nothing. */
  lemma SendOutUnknownRegion(s: DaemonState, dataflowId: DataflowId, nodeId: NodeId, id: RegionId,
                             closedSinks: set<SinkId>)
    requires id !in s.uninitSharedMemory
    ensures SendOutStep(s, dataflowId, nodeId, id, closedSinks)
         == Outcome(s, Err(InvalidSharedMemoryId(id)), None, [])
  {
  }

  /** A send-out on an unknown dataflow is a handler error, but the reservation is already gone. */
  lemma SendOutUnknownDataflow(s: DaemonState, dataflowId: DataflowId, nodeId: NodeId, id: RegionId,
                               closedSinks: set<SinkId>)
    requires id in s.uninitSharedMemory && dataflowId !in s.running
    ensures var o := SendOutStep(s, dataflowId, nodeId, id, closedSinks);
      && o.result == Err(NoRunningDataflow(dataflowId)) && o.reply == None && o.sent == []
      && o.state == s.(uninitSharedMemory := s.uninitSharedMemory - {id})
      && id !in o.state.uninitSharedMemory && o.state.sentOutSharedMemory == s.sentOutSharedMemory
  {
  }

  /**
   * A successful send-out publishes the reserved region, sends one `Input`
   * event to each subscribed receiver of the output whose sink is open, in
   * ascending (node, input) order, with fresh, increasing timestamps that
   * carry the region id, prunes exactly the receivers whose sink is
   * closed, and replies Ok. Nothing else changes.
   */
  lemma SendOutDelivers(s: DaemonState, dataflowId: DataflowId, nodeId: NodeId, id: RegionId,
                        closedSinks: set<SinkId>)
    requires WellFormed(s)
    requires id in s.uninitSharedMemory && dataflowId in s.running
    ensures var o := SendOutStep(s, dataflowId, nodeId, id, closedSinks);
      var (outputId, memory) := s.uninitSharedMemory[id];
      var df := s.running[dataflowId];
      var receivers := Receivers(df.mappings, (nodeId, outputId));
      && o.result == Ok(()) && o.reply == Some(ReplyResult(Ok(())))
      && o.state.uninitSharedMemory == s.uninitSharedMemory - {id}
      && o.state.sentOutSharedMemory == s.sentOutSharedMemory[id := memory]
      && o.state.running.Keys == s.running.Keys
      && (forall d :: d in s.running && d != dataflowId ==> o.state.running[d] == s.running[d])
      && o.state.running[dataflowId].mappings == df.mappings
      && o.state.running[dataflowId].nodeTasks == df.nodeTasks
      && Targets(o.sent) == OpenReceivers(receivers, df.subscribeChannels, closedSinks)
      && StrictlySorted(Targets(o.sent))
      && (forall x :: x in Targets(o.sent) <==> x in receivers && Open(x, df.subscribeChannels, closedSinks))
      && (forall k :: 0 <= k < |o.sent| ==>
            o.sent[k].event.data == id && s.clock < o.sent[k].event.timestamp <= o.state.clock &&
            o.sent[k].receiver in df.subscribeChannels &&
            o.sent[k].sink == df.subscribeChannels[o.sent[k].receiver])
      && (forall j, k :: 0 <= j < k < |o.sent| ==> o.sent[j].event.timestamp < o.sent[k].event.timestamp)
      && o.state.clock == s.clock + Subscribed(receivers, df.subscribeChannels)
      && (forall n :: n in o.state.running[dataflowId].subscribeChannels <==>
            n in df.subscribeChannels &&
            !(df.subscribeChannels[n] in closedSinks && exists k :: 0 <= k < |receivers| && receivers[k].0 == n))
      && (forall n :: n in o.state.running[dataflowId].subscribeChannels ==>
            o.state.running[dataflowId].subscribeChannels[n] == df.subscribeChannels[n])
  {
    var (outputId, memory) := s.uninitSharedMemory[id];
    var df := s.running[dataflowId];
    var receivers := Receivers(df.mappings, (nodeId, outputId));
    var o := SendOutStep(s, dataflowId, nodeId, id, closedSinks);
    FanOutTargets(receivers, df.subscribeChannels, closedSinks, id, s.clock);
    FanOutStamps(receivers, df.subscribeChannels, closedSinks, id, s.clock);
    FanOutClock(receivers, df.subscribeChannels, closedSinks, id, s.clock);
    OpenReceiversSorted(receivers, df.subscribeChannels, closedSinks);
    forall x ensures x in Targets(o.sent) <==> x in receivers && Open(x, df.subscribeChannels, closedSinks) {
      OpenReceiversMembership(receivers, df.subscribeChannels, closedSinks, x);
    }
    forall n ensures n in o.state.running[dataflowId].subscribeChannels <==>
            n in df.subscribeChannels &&
            !(df.subscribeChannels[n] in closedSinks && exists k :: 0 <= k < |receivers| && receivers[k].0 == n) {
      FanOutClosed(receivers, df.subscribeChannels, closedSinks, id, s.clock, n);
    }
  }

  /** Sending out for an output that nobody reads publishes the region and sends nothing. */
  lemma SendOutToNobody(s: DaemonState, dataflowId: DataflowId, nodeId: NodeId, id: RegionId,
                        closedSinks: set<SinkId>)
    requires id in s.uninitSharedMemory && dataflowId in s.running
    requires (nodeId, s.uninitSharedMemory[id].0) !in s.running[dataflowId].mappings
    ensures var o := SendOutStep(s, dataflowId, nodeId, id, closedSinks);
      o.result == Ok(()) && o.sent == [] && o.state.running == s.running && o.state.clock == s.clock &&
      id in o.state.sentOutSharedMemory
  {
    var df := s.running[dataflowId];
    assert df.subscribeChannels - (set n | n in []) == df.subscribeChannels;
  }

  /** `Stopped` replies Ok and changes nothing. */
  lemma StoppedEffect(s: DaemonState)
    ensures StoppedStep(s) == Outcome(s, Ok(()), Some(ReplyResult(Ok(()))), [])
  {
  }

  /** Spawning keeps the routing sets BTreeSets, whether or not every node spawns. */
  lemma SpawnPreservesWellFormed(s: DaemonState, dataflowId: DataflowId, nodes: seq<(NodeId, SpawnNodeParams)>,
                                 spawned: map<NodeId, TaskHandle>)
    requires WellFormed(s)
    ensures WellFormed(SpawnStep(s, dataflowId, nodes, spawned).state)
  {
    SpawnNodesSucceeds(EmptyDataflow, nodes, spawned);
    SpawnNodesFails(EmptyDataflow, nodes, spawned);
    var (df, result) := SpawnNodes(EmptyDataflow, nodes, spawned);
    if result.Ok? {
      AllInputsSorted(map[], nodes);
    } else {
      var f :| FirstFailure(EmptyDataflow, nodes, spawned, df, result, f);
      AllInputsSorted(map[], nodes[..f + 1]);
    }
  }

  /** Replacing a dataflow's subscribe channels keeps the routing sets BTreeSets. */
  lemma ChannelsUpdatePreservesWellFormed(s: DaemonState, dataflowId: DataflowId, channels: map<NodeId, SinkId>)
    requires WellFormed(s) && dataflowId in s.running
    ensures WellFormed(s.(running := s.running[dataflowId := s.running[dataflowId].(subscribeChannels := channels)]))
  {
  }

  /** Every handler keeps the routing sets BTreeSets. */
  lemma StepPreservesWellFormed(s: DaemonState, event: Event, oracle: Oracle)
    requires WellFormed(s)
    ensures WellFormed(Step(s, event, oracle).state)
  {
    match event
    case Coordinator(Spawn(dataflowId, nodes)) =>
      SpawnPreservesWellFormed(s, dataflowId, nodes, oracle.spawned);
    case _ =>
  }

  /** The HLC never goes back: no event moves the clock below where it was. */
  lemma StepClockMonotone(s: DaemonState, event: Event, oracle: Oracle)
    ensures Step(s, event, oracle).state.clock >= s.clock
  {
    match event
    case Node(dataflowId, nodeId, SendOutMessage(id)) =>
      if id in s.uninitSharedMemory && dataflowId in s.running {
        var df := s.running[dataflowId];
        FanOutClock(Receivers(df.mappings, (nodeId, s.uninitSharedMemory[id].0)), df.subscribeChannels,
                    oracle.closedSinks, id, s.clock);
      }
    case _ =>
  }

  /** Over a whole run of the event loop the HLC never goes back. */
  lemma {:induction false} RunClockMonotone(s: DaemonState, steps: seq<(Event, Oracle)>)
    ensures Run(s, steps).state.clock >= s.clock
    decreases |steps|
  {
    if |steps| > 0 {
      StepClockMonotone(s, steps[0].0, steps[0].1);
      var o := Step(s, steps[0].0, steps[0].1);
      if o.result.Ok? {
        RunClockMonotone(o.state, steps[1..]);
      }
    }
  }

  ghost predicate RegionsDisjoint(s: DaemonState)
  {
    s.uninitSharedMemory.Keys !! s.sentOutSharedMemory.Keys
  }

  /** The allocator hands out an id that the daemon does not track yet. */
  ghost predicate FreshAllocation(s: DaemonState, oracle: Oracle)
  {
    oracle.allocation.Allocated? ==>
      oracle.allocation.osId !in s.uninitSharedMemory && oracle.allocation.osId !in s.sentOutSharedMemory
  }

  /**
   * With fresh region ids, a region is reserved or published, never both;
   * a published region was reserved just before; and published regions
   * are never released.
   */
  lemma StepRegionLifecycle(s: DaemonState, event: Event, oracle: Oracle)
    requires RegionsDisjoint(s) && FreshAllocation(s, oracle)
    ensures var s' := Step(s, event, oracle).state;
      && RegionsDisjoint(s')
      && s.sentOutSharedMemory.Keys <= s'.sentOutSharedMemory.Keys
      && (forall id :: id in s'.sentOutSharedMemory && id !in s.sentOutSharedMemory ==>
            id in s.uninitSharedMemory && id !in s'.uninitSharedMemory)
  {
  }

  /**
   * Handling one more event after a run: a run that already failed is not
   * extended; otherwise the event is handled in the state the run left.
   */
  lemma {:induction false} RunExtend(s: DaemonState, p: seq<(Event, Oracle)>, e: (Event, Oracle))
    ensures var r := Run(s, p);
      && (r.result.Err? ==> Run(s, p + [e]) == r)
      && (r.result.Ok? ==>
            var o := Step(r.state, e.0, e.1);
            Run(s, p + [e]) == RunResult(o.state, o.result, r.handled + 1))
    decreases |p|
  {
    if |p| == 0 {
      assert [] + [e] == [e];
    } else {
      assert (p + [e])[0] == p[0] && (p + [e])[1..] == p[1..] + [e];
      var o := Step(s, p[0].0, p[0].1);
      if o.result.Ok? {
        RunExtend(o.state, p[1..], e);
      }
    }
  }

  /**
   * The event loop handles events until the first error: a failed run
   * handled the events before its last one without error, and its result
   * and state are exactly those of the last event's handler.
   */
  lemma {:induction false} RunStopsAtFirstError(s: DaemonState, steps: seq<(Event, Oracle)>)
    ensures var r := Run(s, steps);
      && r.handled <= |steps|
      && (r.result.Ok? ==> r.handled == |steps|)
      && (r.result.Err? ==>
            && 1 <= r.handled
            && Run(s, steps[..r.handled]) == r
            && var p := Run(s, steps[..r.handled - 1]);
               && p.result.Ok? && p.handled == r.handled - 1
               && var o := Step(p.state, steps[r.handled - 1].0, steps[r.handled - 1].1);
                  o.result == r.result && o.state == r.state)
    decreases |steps|
  {
    if |steps| > 0 {
      var q, e := steps[..|steps| - 1], steps[|steps| - 1];
      assert steps == q + [e];
      RunStopsAtFirstError(s, q);
      RunExtend(s, q, e);
      var p := Run(s, q);
      if p.result.Err? {
        assert steps[..p.handled - 1] == q[..p.handled - 1];
        assert steps[..p.handled] == q[..p.handled];
        assert steps[p.handled - 1] == q[p.handled - 1];
      } else {
        assert steps[..|q|] == q && steps[..|steps|] == steps;
      }
    }
  }

  /** An Ok run of the event loop: every handler it called returned Ok. */
  lemma {:induction false} RunOkEveryStep(s: DaemonState, steps: seq<(Event, Oracle)>)
    ensures Run(s, steps).result.Ok? ==>
      forall k :: 0 <= k < |steps| ==>
        Run(s, steps[..k]).result.Ok? && Step(Run(s, steps[..k]).state, steps[k].0, steps[k].1).result.Ok?
    decreases |steps|
  {
    if |steps| > 0 {
      var q, e := steps[..|steps| - 1], steps[|steps| - 1];
      assert steps == q + [e];
      RunOkEveryStep(s, q);
      RunExtend(s, q, e);
      if Run(s, steps).result.Ok? {
        forall k | 0 <= k < |steps|
          ensures Run(s, steps[..k]).result.Ok? && Step(Run(s, steps[..k]).state, steps[k].0, steps[k].1).result.Ok?
        {
          if k < |q| {
            assert steps[..k] == q[..k] && steps[k] == q[k];
          } else {
            assert steps[..k] == q;
          }
        }
      }
    }
  }

  /** The event loop keeps the routing sets BTreeSets. */
  lemma {:induction false} RunPreservesWellFormed(s: DaemonState, steps: seq<(Event, Oracle)>)
    requires WellFormed(s)
    ensures WellFormed(Run(s, steps).state)
    decreases |steps|
  {
    if |steps| > 0 {
      StepPreservesWellFormed(s, steps[0].0, steps[0].1);
      var o := Step(s, steps[0].0, steps[0].1);
      if o.result.Ok? {
        RunPreservesWellFormed(o.state, steps[1..]);
      }
    }
  }
}
