/**
 * The fan-out step of `SendOutMessage`: the routing set of the produced
 * output is walked in ascending order; every receiver that has a
 * subscribe channel gets a fresh HLC timestamp and one `Input` event, and
 * the receivers whose sink turns out to be closed are collected so that
 * their channels can be removed afterwards.
 */
module Routing {
  import opened Ids
  import opened OrderedSet
  import opened Wrappers
  import opened Messages

  datatype FanOutResult = FanOutResult(sent: seq<Delivery>, closed: seq<NodeId>, clock: nat)

  /**
   * The fan-out loop over `receivers`, starting with the HLC at `clock`.
   * The clock ticks before each send, so a send that fails still uses a
   * timestamp.
   */
  function FanOut(receivers: seq<InputId>, channels: map<NodeId, SinkId>, closedSinks: set<SinkId>,
                  region: RegionId, clock: nat): FanOutResult
    decreases |receivers|
  {
    if |receivers| == 0 then FanOutResult([], [], clock)
    else
      var prev := FanOut(receivers[..|receivers| - 1], channels, closedSinks, region, clock);
      var (receiver, inputId) := receivers[|receivers| - 1];
      if receiver !in channels then prev
      else
        var timestamp := prev.clock + 1;
        if channels[receiver] in closedSinks then
          FanOutResult(prev.sent, prev.closed + [receiver], timestamp)
        else
          var event := Input(inputId, timestamp, region);
          FanOutResult(prev.sent + [Delivery(channels[receiver], receiver, event)], prev.closed, timestamp)
  }

  /**
   * The send-out loop: one `Input` event per routing-set entry whose node
   * has a subscribe channel, each with a new timestamp from the HLC.
   */
  method SendToReceivers(receivers: seq<InputId>, channels: map<NodeId, SinkId>, closedSinks: set<SinkId>,
                         region: RegionId, clock: nat)
    returns (sent: seq<Delivery>, closed: seq<NodeId>, hlc: nat)
    ensures FanOutResult(sent, closed, hlc) == FanOut(receivers, channels, closedSinks, region, clock)
  {
    sent, closed, hlc := [], [], clock;
    var k := 0;
    while k < |receivers|
      invariant 0 <= k <= |receivers|
      invariant FanOut(receivers[..k], channels, closedSinks, region, clock) == FanOutResult(sent, closed, hlc)
    {
      var (receiverId, inputId) := receivers[k];
      if receiverId in channels {
        var channel := channels[receiverId];
        hlc := hlc + 1;
        if channel in closedSinks {
          closed := closed + [receiverId];
        } else {
          sent := sent + [Delivery(channel, receiverId, Input(inputId, hlc, region))];
        }
      }
      assert receivers[..k + 1][..k] == receivers[..k];
      k := k + 1;
    }
    assert receivers[..k] == receivers;
  }

  /** The removal loop after the send-out: drop the channel of every node whose send failed. */
  method RemoveClosed(channels: map<NodeId, SinkId>, closed: seq<NodeId>) returns (remaining: map<NodeId, SinkId>)
    ensures forall n :: n in remaining <==> n in channels && n !in closed
    ensures forall n :: n in remaining ==> remaining[n] == channels[n]
    ensures remaining == channels - (set n | n in closed)
  {
    remaining := channels;
    var k := 0;
    while k < |closed|
      invariant 0 <= k <= |closed|
      invariant remaining == channels - (set n | n in closed[..k])
    {
      remaining := remaining - {closed[k]};
      k := k + 1;
    }
    assert closed[..k] == closed;
  }

  /** A receiver whose node has subscribed and whose sink still accepts events. */
  predicate Open(x: InputId, channels: map<NodeId, SinkId>, closedSinks: set<SinkId>)
  {
    x.0 in channels && channels[x.0] !in closedSinks
  }

  /** Reference definition: the receivers that get an event, in routing-set order. */
  function OpenReceivers(receivers: seq<InputId>, channels: map<NodeId, SinkId>, closedSinks: set<SinkId>): seq<InputId>
    decreases |receivers|
  {
    if |receivers| == 0 then []
    else
      var prev := OpenReceivers(receivers[..|receivers| - 1], channels, closedSinks);
      if Open(receivers[|receivers| - 1], channels, closedSinks) then prev + [receivers[|receivers| - 1]] else prev
  }

  /** The (receiver, input) pairs that a sequence of deliveries reached. */
  function Targets(sent: seq<Delivery>): seq<InputId>
  {
    seq(|sent|, k requires 0 <= k < |sent| => (sent[k].receiver, sent[k].event.id))
  }

  lemma {:induction false} OpenReceiversMembership(receivers: seq<InputId>, channels: map<NodeId, SinkId>,
                                                   closedSinks: set<SinkId>, x: InputId)
    ensures x in OpenReceivers(receivers, channels, closedSinks) <==> x in receivers && Open(x, channels, closedSinks)
    decreases |receivers|
  {
    if |receivers| > 0 {
      var prefix := receivers[..|receivers| - 1];
      OpenReceiversMembership(prefix, channels, closedSinks, x);
      assert receivers == prefix + [receivers[|receivers| - 1]];
    }
  }

  /** Filtering keeps the ascending order of a BTreeSet. */
  lemma {:induction false} OpenReceiversSorted(receivers: seq<InputId>, channels: map<NodeId, SinkId>,
                                               closedSinks: set<SinkId>)
    requires StrictlySorted(receivers)
    ensures StrictlySorted(OpenReceivers(receivers, channels, closedSinks))
    decreases |receivers|
  {
    if |receivers| > 0 {
      var prefix := receivers[..|receivers| - 1];
      var last := receivers[|receivers| - 1];
      var prev := OpenReceivers(prefix, channels, closedSinks);
      OpenReceiversSorted(prefix, channels, closedSinks);
      if Open(last, channels, closedSinks) {
        forall i | 0 <= i < |prev| ensures IdLess(prev[i], last) {
          OpenReceiversMembership(prefix, channels, closedSinks, prev[i]);
          var k :| 0 <= k < |prefix| && prefix[k] == prev[i];
          assert receivers[k] == prev[i];
        }
        var r := prev + [last];
        forall i, j | 0 <= i < j < |r| ensures IdLess(r[i], r[j]) {
          if j < |prev| {
            assert r[i] == prev[i] && r[j] == prev[j];
          }
        }
      }
    }
  }

  /** Exactly the open receivers get an event, in routing-set order. */
  lemma {:induction false} FanOutTargets(receivers: seq<InputId>, channels: map<NodeId, SinkId>,
                                         closedSinks: set<SinkId>, region: RegionId, clock: nat)
    ensures Targets(FanOut(receivers, channels, closedSinks, region, clock).sent)
         == OpenReceivers(receivers, channels, closedSinks)
    decreases |receivers|
  {
    if |receivers| > 0 {
      var prefix := receivers[..|receivers| - 1];
      FanOutTargets(prefix, channels, closedSinks, region, clock);
      var prev := FanOut(prefix, channels, closedSinks, region, clock);
      var r := FanOut(receivers, channels, closedSinks, region, clock);
      if Open(receivers[|receivers| - 1], channels, closedSinks) {
        assert Targets(r.sent) == Targets(prev.sent) + [receivers[|receivers| - 1]];
      } else {
        assert r.sent == prev.sent;
      }
    }
  }

  /** A node is reported closed iff one of its receivers was subscribed with a closed sink. */
  lemma {:induction false} FanOutClosed(receivers: seq<InputId>, channels: map<NodeId, SinkId>,
                                        closedSinks: set<SinkId>, region: RegionId, clock: nat, n: NodeId)
    ensures n in FanOut(receivers, channels, closedSinks, region, clock).closed
        <==> n in channels && channels[n] in closedSinks &&
             exists k :: 0 <= k < |receivers| && receivers[k].0 == n
    decreases |receivers|
  {
    if |receivers| > 0 {
      var prefix := receivers[..|receivers| - 1];
      FanOutClosed(prefix, channels, closedSinks, region, clock, n);
      if n in channels && channels[n] in closedSinks && exists k :: 0 <= k < |receivers| && receivers[k].0 == n {
        var k :| 0 <= k < |receivers| && receivers[k].0 == n;
        if k < |prefix| {
          assert prefix[k].0 == n;
        }
      }
      if exists k :: 0 <= k < |prefix| && prefix[k].0 == n {
        var k :| 0 <= k < |prefix| && prefix[k].0 == n;
        assert receivers[k].0 == n;
      }
    }
  }

  /** Reference count: the routing-set entries whose node has a subscribe channel. */
  function Subscribed(receivers: seq<InputId>, channels: map<NodeId, SinkId>): nat
    decreases |receivers|
  {
    if |receivers| == 0 then 0
    else Subscribed(receivers[..|receivers| - 1], channels) + (if receivers[|receivers| - 1].0 in channels then 1 else 0)
  }

  /** The HLC ticks once per routing-set entry whose node has subscribed, whether the send succeeds or not. */
  lemma {:induction false} FanOutClock(receivers: seq<InputId>, channels: map<NodeId, SinkId>,
                                       closedSinks: set<SinkId>, region: RegionId, clock: nat)
    ensures FanOut(receivers, channels, closedSinks, region, clock).clock == clock + Subscribed(receivers, channels)
    decreases |receivers|
  {
    if |receivers| > 0 {
      FanOutClock(receivers[..|receivers| - 1], channels, closedSinks, region, clock);
    }
  }

  /**
   * Every event carries the region, goes to the receiver's own sink, and
   * has a timestamp newer than the clock before the fan-out, no newer than
   * the clock after it, and newer than every earlier event's. The clock
   * advances once per subscribed receiver.
   */
  lemma {:induction false} FanOutStamps(receivers: seq<InputId>, channels: map<NodeId, SinkId>,
                                        closedSinks: set<SinkId>, region: RegionId, clock: nat)
    ensures var r := FanOut(receivers, channels, closedSinks, region, clock);
      && r.clock == clock + |r.sent| + |r.closed|
      && (forall k :: 0 <= k < |r.sent| ==>
            && r.sent[k].receiver in channels
            && r.sent[k].sink == channels[r.sent[k].receiver]
            && r.sent[k].sink !in closedSinks
            && r.sent[k].event.data == region
            && clock < r.sent[k].event.timestamp <= r.clock)
      && (forall j, k :: 0 <= j < k < |r.sent| ==> r.sent[j].event.timestamp < r.sent[k].event.timestamp)
    decreases |receivers|
  {
    if |receivers| > 0 {
      FanOutStamps(receivers[..|receivers| - 1], channels, closedSinks, region, clock);
    }
  }
}
