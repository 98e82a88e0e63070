/**
 * The daemon: its three maps and its HLC are fields that the event
 * handlers update in place. Each handler is proved to do what the
 * matching function of module Transitions says.
 */
module DaemonMain {
  import opened Ids
  import opened OrderedSet
  import opened Wrappers
  import opened Messages
  import opened Routing
  import opened Transitions

  class Daemon {
    /** The HLC, as a counter: every new timestamp is the next number. */
    var clock: nat
    var uninitSharedMemory: map<RegionId, (DataId, Shmem)>
    var sentOutSharedMemory: map<RegionId, Shmem>
    var running: map<DataflowId, RunningDataflow>

    ghost function State(): DaemonState
      reads this
    {
      DaemonState(clock, uninitSharedMemory, sentOutSharedMemory, running)
    }

    ghost predicate Valid()
      reads this
    {
      WellFormed(State())
    }

    constructor ()
      ensures Valid()
      ensures State() == DaemonState(0, map[], map[], map[])
    {
      clock := 0;
      uninitSharedMemory := map[];
      sentOutSharedMemory := map[];
      running := map[];
    }

    /** Spawn: register the dataflow, invert each node's input mappings, then spawn the node. */
    method HandleCoordinatorEvent(command: DaemonCoordinatorEvent, spawned: map<NodeId, TaskHandle>)
      returns (result: Result<(), DaemonError>)
      requires Valid()
      modifies this
      ensures Valid()
      ensures var o := SpawnStep(old(State()), command.dataflowId, command.nodes, spawned);
        State() == o.state && result == o.result
    {
      var Spawn(dataflowId, nodes) := command;
      if dataflowId in running {
        return Err(AlreadyRunning(dataflowId));
      }
      var dataflow := EmptyDataflow;
      var i := 0;
      while i < |nodes|
        invariant 0 <= i <= |nodes|
        invariant SpawnNodes(EmptyDataflow, nodes[..i], spawned) == (dataflow, Ok(()))
      {
        var (nodeId, params) := nodes[i];
        ghost var before := dataflow;
        var j := 0;
        while j < |params.inputs|
          invariant 0 <= j <= |params.inputs|
          invariant dataflow == before.(mappings := AddInputs(before.mappings, nodeId, params.inputs[..j]))
        {
          var (inputId, mapping) := params.inputs[j];
          if mapping.User? {
            var key := (mapping.source, mapping.output);
            dataflow := dataflow.(mappings := dataflow.mappings[key := Insert(Receivers(dataflow.mappings, key), (nodeId, inputId))]);
          }
          assert params.inputs[..j + 1][..j] == params.inputs[..j];
          j := j + 1;
        }
        assert params.inputs[..j] == params.inputs;
        assert nodes[..i + 1][..i] == nodes[..i];
        if nodeId !in spawned {
          running := running[dataflowId := dataflow];
          result := Err(SpawnFailed(nodeId));
          SpawnNodesTail(nodes, i, spawned);
          StepPreservesWellFormed(old(State()), Coordinator(command), Oracle(spawned, AllocFailed, false, {}));
          return;
        }
        dataflow := dataflow.(nodeTasks := dataflow.nodeTasks[nodeId := spawned[nodeId]]);
        i := i + 1;
      }
      assert nodes[..i] == nodes;
      running := running[dataflowId := dataflow];
      result := Ok(());
      StepPreservesWellFormed(old(State()), Coordinator(command), Oracle(spawned, AllocFailed, false, {}));
    }

    method Subscribe(dataflowId: DataflowId, nodeId: NodeId, eventSender: SinkId)
      returns (result: Result<(), DaemonError>, reply: Option<ControlReply>)
      requires Valid()
      modifies this
      ensures Valid()
      ensures var o := SubscribeStep(old(State()), dataflowId, nodeId, eventSender);
        State() == o.state && result == o.result && reply == o.reply
    {
      var answer: Result<(), DaemonError>;
      if dataflowId in running {
        var dataflow := running[dataflowId];
        running := running[dataflowId := dataflow.(subscribeChannels := dataflow.subscribeChannels[nodeId := eventSender])];
        answer := Ok(());
      } else {
        answer := Err(NoRunningDataflow(dataflowId));
      }
      reply := Some(ReplyResult(answer));
      result := Ok(());
    }

    method PrepareOutputMessage(outputId: DataId, len: nat, allocation: AllocOutcome, replyDelivered: bool)
      returns (result: Result<(), DaemonError>, reply: Option<ControlReply>)
      requires Valid()
      modifies this
      ensures Valid()
      ensures var o := PrepareStep(old(State()), outputId, len, allocation, replyDelivered);
        State() == o.state && result == o.result && reply == o.reply
    {
      if allocation.AllocFailed? {
        return Err(AllocationFailed), None;
      }
      var id := allocation.osId;
      uninitSharedMemory := uninitSharedMemory[id := (outputId, Shmem(id, len))];
      reply := Some(PreparedMessage(id));
      if !replyDelivered {
        // the reply was lost: drop the reservation
        uninitSharedMemory := uninitSharedMemory - {id};
      }
      result := Ok(());
    }

    method SendOutMessage(dataflowId: DataflowId, nodeId: NodeId, id: RegionId, closedSinks: set<SinkId>)
      returns (result: Result<(), DaemonError>, reply: Option<ControlReply>, sent: seq<Delivery>)
      requires Valid()
      modifies this
      ensures Valid()
      ensures var o := SendOutStep(old(State()), dataflowId, nodeId, id, closedSinks);
        State() == o.state && result == o.result && reply == o.reply && sent == o.sent
    {
      if id !in uninitSharedMemory {
        return Err(InvalidSharedMemoryId(id)), None, [];
      }
      var (outputId, memory) := uninitSharedMemory[id];
      uninitSharedMemory := uninitSharedMemory - {id};
      if dataflowId !in running {
        return Err(NoRunningDataflow(dataflowId)), None, [];
      }
      var dataflow := running[dataflowId];
      var localReceivers := Receivers(dataflow.mappings, (nodeId, outputId));

      var hlc, closed;
      sent, closed, hlc := SendToReceivers(localReceivers, dataflow.subscribeChannels, closedSinks, id, clock);
      var channels := RemoveClosed(dataflow.subscribeChannels, closed);

      ChannelsUpdatePreservesWellFormed(State(), dataflowId, channels);
      clock := hlc;
      running := running[dataflowId := dataflow.(subscribeChannels := channels)];
      // the region is published; nothing in this handler frees it
      sentOutSharedMemory := sentOutSharedMemory[id := memory];
      result, reply := Ok(()), Some(ReplyResult(Ok(())));
    }

    method Stopped() returns (result: Result<(), DaemonError>, reply: Option<ControlReply>)
      ensures var o := StoppedStep(State());
        result == o.result && reply == o.reply
    {
      result, reply := Ok(()), Some(ReplyResult(Ok(())));
    }

    method HandleNodeEvent(event: DaemonNodeEvent, dataflowId: DataflowId, nodeId: NodeId, oracle: Oracle)
      returns (result: Result<(), DaemonError>, reply: Option<ControlReply>, sent: seq<Delivery>)
      requires Valid()
      modifies this
      ensures Valid()
      ensures Outcome(State(), result, reply, sent) == NodeStep(old(State()), dataflowId, nodeId, event, oracle)
    {
      sent := [];
      match event
      case Subscribe(eventSender) =>
        result, reply := Subscribe(dataflowId, nodeId, eventSender);
      case PrepareOutputMessage(outputId, len) =>
        result, reply := PrepareOutputMessage(outputId, len, oracle.allocation, oracle.replyDelivered);
      case SendOutMessage(id) =>
        result, reply, sent := SendOutMessage(dataflowId, nodeId, id, oracle.closedSinks);
      case Stopped =>
        result, reply := Stopped();
    }

    /** One iteration of the event loop's body. */
    method Handle(event: Event, oracle: Oracle)
      returns (result: Result<(), DaemonError>, reply: Option<ControlReply>, sent: seq<Delivery>)
      requires Valid()
      modifies this
      ensures Valid()
      ensures Outcome(State(), result, reply, sent) == Step(old(State()), event, oracle)
    {
      reply, sent := None, [];
      match event
      case NewConnection(_) =>
        result := Ok(());
      case ConnectError(_) =>
        result := Ok(());
      case Coordinator(command) =>
        result := HandleCoordinatorEvent(command, oracle.spawned);
      case Node(dataflowId, nodeId, nodeEvent) =>
        result, reply, sent := HandleNodeEvent(nodeEvent, dataflowId, nodeId, oracle);
    }

    /** The event loop: handles events in order until one of them returns an error. */
    method RunInner(steps: seq<(Event, Oracle)>) returns (result: Result<(), DaemonError>, handled: nat)
      requires Valid()
      modifies this
      ensures Valid()
      ensures RunResult(State(), result, handled) == Run(old(State()), steps)
    {
      handled := 0;
      while handled < |steps|
        invariant 0 <= handled <= |steps|
        invariant Valid()
        invariant var r := Run(State(), steps[handled..]);
          Run(old(State()), steps) == r.(handled := r.handled + handled)
      {
        var (event, oracle) := steps[handled];
        assert steps[handled..][1..] == steps[handled + 1..];
        var r, _, _ := Handle(event, oracle);
        handled := handled + 1;
        if r.Err? {
          return r, handled;
        }
      }
      result := Ok(());
    }
  }

  /** Spawning stops at the node that fails, with the nodes before it spawned. */
  lemma SpawnNodesTail(nodes: seq<(NodeId, SpawnNodeParams)>, i: nat, spawned: map<NodeId, TaskHandle>)
    requires i < |nodes|
    requires nodes[i].0 !in spawned
    requires SpawnNodes(EmptyDataflow, nodes[..i], spawned).1 == Ok(())
    ensures SpawnNodes(EmptyDataflow, nodes, spawned) == SpawnNodes(EmptyDataflow, nodes[..i + 1], spawned)
    decreases |nodes| - i
  {
    if i + 1 < |nodes| {
      var prefix := nodes[..|nodes| - 1];
      assert prefix[..i] == nodes[..i] && prefix[i] == nodes[i] && prefix[..i + 1] == nodes[..i + 1];
      SpawnNodesTail(prefix, i, spawned);
    } else {
      assert nodes[..i + 1] == nodes;
    }
  }
}
