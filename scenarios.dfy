/**
 * Two end-to-end runs of the daemon: node A's output `out1` is routed to
 * input `in1` of node B; both nodes subscribe; A prepares a region `r1`
 * of 128 bytes and sends it out.
 */
module Scenarios {
  import opened Ids
  import opened OrderedSet
  import opened Wrappers
  import opened Messages
  import opened Transitions

  function Nodes(): seq<(NodeId, SpawnNodeParams)>
  {
    [("A", SpawnNodeParams([])), ("B", SpawnNodeParams([("in1", User("A", "out1"))]))]
  }

  /** The daemon after spawn, both subscriptions (A with sink 100, B with sink 101) and the preparation of `r1`. */
  function Prepared(): DaemonState
  {
    var s0 := DaemonState(0, map[], map[], map[]);
    var s1 := SpawnStep(s0, 1, Nodes(), map["A" := 10, "B" := 11]).state;
    var s2 := SubscribeStep(s1, 1, "A", 100).state;
    var s3 := SubscribeStep(s2, 1, "B", 101).state;
    PrepareStep(s3, "out1", 128, Allocated("r1"), true).state
  }

  lemma PreparedState()
    ensures Prepared().uninitSharedMemory == map["r1" := ("out1", Shmem("r1", 128))]
    ensures 1 in Prepared().running
    ensures Prepared().running[1].mappings == map[("A", "out1") := [("B", "in1")]]
    ensures Prepared().running[1].subscribeChannels == map["A" := 100, "B" := 101]
    ensures Prepared().clock == 0
  {
    var inputs := [("in1", User("A", "out1"))];
    assert inputs[..0] == [];
    assert Insert([], ("B", "in1")) == [("B", "in1")];
    assert AddInputs(map[], "B", inputs) == map[("A", "out1") := [("B", "in1")]];
    assert Nodes()[..1] == [("A", SpawnNodeParams([]))];
    assert Nodes()[..1][..0] == [];
    var df1 := EmptyDataflow.(nodeTasks := map["A" := 10]);
    assert SpawnNodes(EmptyDataflow, Nodes()[..1], map["A" := 10, "B" := 11]) == (df1, Ok(()));
    var df2 := RunningDataflow(map[], map["A" := 10, "B" := 11], map[("A", "out1") := [("B", "in1")]]);
    assert SpawnNodes(EmptyDataflow, Nodes(), map["A" := 10, "B" := 11]) == (df2, Ok(()));
  }

  /** B gets exactly one event, for `in1`, referencing `r1`, stamped after every earlier timestamp. */
  lemma ScenarioDelivers()
    ensures var o := SendOutStep(Prepared(), 1, "A", "r1", {});
      && o.result == Ok(())
      && o.sent == [Delivery(101, "B", Input("in1", 1, "r1"))]
      && o.state.sentOutSharedMemory == map["r1" := Shmem("r1", 128)]
      && o.state.uninitSharedMemory == map[]
  {
    PreparedState();
    var receivers := [("B", "in1")];
    assert receivers[..0] == [];
  }

  /** If B's sink is closed by the time A sends, the send still succeeds, nothing is delivered and B is pruned. */
  lemma ScenarioReceiverGone()
    ensures var o := SendOutStep(Prepared(), 1, "A", "r1", {101});
      && o.result == Ok(())
      && o.sent == []
      && o.state.running[1].subscribeChannels == map["A" := 100]
      && "r1" in o.state.sentOutSharedMemory
  {
    PreparedState();
    var receivers := [("B", "in1")];
    assert receivers[..0] == [];
    assert (map["A" := 100, "B" := 101] - (set n | n in ["B"])) == map["A" := 100];
  }
}
