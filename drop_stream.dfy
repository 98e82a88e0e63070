/**
 * The node side of the drop-token subscription: the handshake that opens
 * it and the background pump that long-polls the daemon for finished drop
 * tokens and hands them one by one to the node's application code.
 *
 * The transport's answers are given as a sequence of request results, one
 * per request, and the application-side receiver as the number of tokens
 * it takes before it is dropped.
 */
module DropStream {
  import opened Ids
  import opened Wrappers

  datatype NodeDropEvent = OutputDropped(dropToken: DropToken)

  /** The daemon's replies; `OtherReply` stands for every variant the pump does not expect. */
  datatype DaemonReply =
    | ReplyResult(result: Result<(), string>)
    | NextDropEvents(events: seq<NodeDropEvent>)
    | OtherReply(variant: string)

  /** The outcome of one `channel.request`: a reply, or a transport error. */
  type RequestResult = Result<DaemonReply, string>

  /** How many more tokens the receiving end takes before it is gone. */
  datatype Capacity = Unbounded | Remaining(n: nat)

  predicate Takes(c: Capacity, k: nat)
  {
    c.Unbounded? || k <= c.n
  }

  function Consume(c: Capacity, k: nat): Capacity
    requires Takes(c, k)
  {
    if c.Unbounded? then c else Remaining(c.n - k)
  }

  /** Why the pump stopped: an empty batch, a forward that failed, or (in the model) no more answers to read. */
  datatype LoopExit = StreamClosed | ForwardFailed | Exhausted

  datatype PumpRun = PumpRun(forwarded: seq<DropToken>, requests: nat, exit: LoopExit)

  datatype InitError =
    | RegisterFailed(message: string)
    | SubscribeRequestFailed(message: string)
    | SubscribeFailed(message: string)
    | UnexpectedSubscribeReply(reply: DaemonReply)

  /** A `NextDropEvents` reply; every other reply and every transport error makes the pump ask again. */
  predicate IsBatch(reply: RequestResult)
  {
    reply.Ok? && reply.value.NextDropEvents?
  }

  function Tokens(events: seq<NodeDropEvent>): seq<DropToken>
  {
    seq(|events|, i requires 0 <= i < |events| => events[i].dropToken)
  }

  /**
   * What the pump does with the answers `replies` to its successive
   * `NextFinishedDropTokens` requests: an empty batch ends it, a batch is
   * forwarded token by token until the receiver is gone, and any other
   * answer makes it ask again.
   */
  function Pump(replies: seq<RequestResult>, receiver: Capacity): PumpRun
    decreases |replies|
  {
    if |replies| == 0 then PumpRun([], 0, Exhausted)
    else if !IsBatch(replies[0]) then
      var rest := Pump(replies[1..], receiver);
      PumpRun(rest.forwarded, rest.requests + 1, rest.exit)
    else
      var events := replies[0].value.events;
      if |events| == 0 then PumpRun([], 1, StreamClosed)
      else if Takes(receiver, |events|) then
        var rest := Pump(replies[1..], Consume(receiver, |events|));
        PumpRun(Tokens(events) + rest.forwarded, rest.requests + 1, rest.exit)
      else
        PumpRun(Tokens(events)[..receiver.n], 1, ForwardFailed)
  }

  /**
   * The inner loop of `drop_stream_loop`: hand the tokens of one batch to
   * the receiver one by one, stopping at the first that it does not take.
   */
  method Forward(events: seq<NodeDropEvent>, receiver: Capacity)
    returns (sent: seq<DropToken>, left: Capacity, ok: bool)
    ensures ok <==> Takes(receiver, |events|)
    ensures ok ==> sent == Tokens(events) && left == Consume(receiver, |events|)
    ensures !ok ==> receiver.Remaining? && receiver.n < |events| && sent == Tokens(events)[..receiver.n]
  {
    sent, left := [], receiver;
    var i := 0;
    while i < |events|
      invariant 0 <= i <= |events|
      invariant Takes(receiver, i) && left == Consume(receiver, i)
      invariant sent == Tokens(events)[..i]
    {
      if !Takes(left, 1) {
        // the receiving end is gone
        assert i == receiver.n;
        return sent, left, false;
      }
      sent := sent + [events[i].dropToken];
      left := Consume(left, 1);
      i := i + 1;
    }
    assert Tokens(events)[..i] == Tokens(events);
    ok := true;
  }

  /** `drop_stream_loop`, consuming the answers to its requests in order. */
  method DropStreamLoop(replies: seq<RequestResult>, receiver: Capacity)
    returns (forwarded: seq<DropToken>, requests: nat, exit: LoopExit)
    ensures PumpRun(forwarded, requests, exit) == Pump(replies, receiver)
  {
    forwarded, requests, exit := [], 0, Exhausted;
    var capacity := receiver;
    while requests < |replies|
      invariant 0 <= requests <= |replies|
      invariant var rest := Pump(replies[requests..], capacity);
        Pump(replies, receiver) == PumpRun(forwarded + rest.forwarded, requests + rest.requests, rest.exit)
    {
      var reply := replies[requests];
      assert replies[requests..][0] == reply && replies[requests..][1..] == replies[requests + 1..];
      requests := requests + 1;
      if !IsBatch(reply) {
        // an unexpected reply or a transport error: ask again
        continue;
      }
      var events := reply.value.events;
      if |events| == 0 {
        exit := StreamClosed;
        break;
      }
      var sent, left, ok := Forward(events, capacity);
      forwarded, capacity := forwarded + sent, left;
      if !ok {
        // a token could not be forwarded: stop polling
        exit := ForwardFailed;
        break;
      }
    }
  }

  /**
   * `init_on_channel`: register, subscribe, and only if the daemon answers
   * exactly `Result(Ok(()))` start the pump (here: run it over `replies`).
   */
  method InitOnChannel(register: Result<(), string>, subscribeReply: RequestResult,
                       replies: seq<RequestResult>, receiver: Capacity)
    returns (r: Result<PumpRun, InitError>)
    ensures r.Ok? <==> register.Ok? && subscribeReply == Ok(ReplyResult(Ok(())))
    ensures r.Ok? ==> r.value == Pump(replies, receiver)
    ensures register.Err? ==> r == Err(RegisterFailed(register.error))
    ensures register.Ok? && subscribeReply.Err? ==> r == Err(SubscribeRequestFailed(subscribeReply.error))
    ensures register.Ok? && subscribeReply.Ok? && subscribeReply.value.ReplyResult? && subscribeReply.value.result.Err? ==>
              r == Err(SubscribeFailed(subscribeReply.value.result.error))
  {
    if register.Err? {
      return Err(RegisterFailed(register.error));
    }
    if subscribeReply.Err? {
      return Err(SubscribeRequestFailed(subscribeReply.error));
    }
    var reply := subscribeReply.value;
    if reply.ReplyResult? && reply.result.Err? {
      return Err(SubscribeFailed(reply.result.error));
    }
    if reply != ReplyResult(Ok(())) {
      return Err(UnexpectedSubscribeReply(reply));
    }
    var forwarded, requests, exit := DropStreamLoop(replies, receiver);
    r := Ok(PumpRun(forwarded, requests, exit));
  }

  // ------------------------------------------------------------- properties

  predicate IsEmptyBatch(reply: RequestResult)
  {
    IsBatch(reply) && |reply.value.events| == 0
  }

  /** The tokens an answer carries; an error or an unexpected reply carries none. */
  function Batch(reply: RequestResult): seq<DropToken>
  {
    if IsBatch(reply) then Tokens(reply.value.events) else []
  }

  /** Reference definition: all tokens of the answers, batch after batch. */
  function AllTokens(replies: seq<RequestResult>): seq<DropToken>
    decreases |replies|
  {
    if |replies| == 0 then [] else Batch(replies[0]) + AllTokens(replies[1..])
  }

  /**
   * The pump asks once per answer until it stops; an empty batch is the
   * last request it makes, and so is a non-empty batch whose forward
   * failed; and when answers remain unread it stopped because of an empty
   * batch or a failed forward.
   */
  lemma {:induction false} PumpStops(replies: seq<RequestResult>, receiver: Capacity)
    ensures var r := Pump(replies, receiver);
      && r.requests <= |replies|
      && (|replies| > 0 ==> r.requests >= 1)
      && (forall k :: 0 <= k < r.requests - 1 ==> !IsEmptyBatch(replies[k]))
      && (r.exit == StreamClosed ==> r.requests >= 1 && IsEmptyBatch(replies[r.requests - 1]))
      && (r.exit == ForwardFailed ==> r.requests >= 1 && IsBatch(replies[r.requests - 1]) && !IsEmptyBatch(replies[r.requests - 1]))
      && (r.exit == Exhausted ==> r.requests == |replies| && forall k :: 0 <= k < |replies| ==> !IsEmptyBatch(replies[k]))
      && (r.requests < |replies| ==> r.exit == StreamClosed || r.exit == ForwardFailed)
    decreases |replies|
  {
    if |replies| > 0 {
      var rest := replies[1..];
      if !IsBatch(replies[0]) {
        PumpStops(rest, receiver);
      } else {
        var events := replies[0].value.events;
        if |events| > 0 && Takes(receiver, |events|) {
          PumpStops(rest, Consume(receiver, |events|));
        }
      }
    }
  }

  /** What `PumpForwardsInOrder` states about the answers `replies`. */
  ghost predicate ForwardsInOrder(replies: seq<RequestResult>, receiver: Capacity)
  {
    var r := Pump(replies, receiver);
    && r.requests <= |replies|
    && (r.exit != ForwardFailed ==> r.forwarded == AllTokens(replies[..r.requests]) && Takes(receiver, |r.forwarded|))
    && (r.exit == ForwardFailed ==>
          && r.requests >= 1
          && IsBatch(replies[r.requests - 1])
          && receiver.Remaining? && |r.forwarded| == receiver.n
          && |AllTokens(replies[..r.requests - 1])| <= receiver.n < |AllTokens(replies[..r.requests])|
          && r.forwarded == AllTokens(replies[..r.requests])[..receiver.n])
  }

  /**
   * The pump forwards the tokens in the order the batches hold them. Unless
   * a forward fails, it forwards every token it received and the receiver
   * took them all. A forward can only fail in the last batch requested, and
   * it stops the pump after exactly the tokens the receiver took, leaving
   * the rest of that batch unsent and making no further request.
   */
  lemma {:induction false} PumpForwardsInOrder(replies: seq<RequestResult>, receiver: Capacity)
    ensures ForwardsInOrder(replies, receiver)
    decreases |replies|
  {
    if |replies| > 0 {
      var rest := replies[1..];
      if !IsBatch(replies[0]) {
        PumpForwardsInOrder(rest, receiver);
        ForwardsAfterRetry(replies, receiver);
      } else if |replies[0].value.events| > 0 && Takes(receiver, |replies[0].value.events|) {
        PumpForwardsInOrder(rest, Consume(receiver, |replies[0].value.events|));
        ForwardsAfterBatch(replies, receiver);
      } else {
        AllTokensFirst(replies, 1);
        assert replies[..0] == [];
      }
    }
  }

  lemma ForwardsAfterRetry(replies: seq<RequestResult>, receiver: Capacity)
    requires |replies| > 0 && !IsBatch(replies[0])
    requires ForwardsInOrder(replies[1..], receiver)
    ensures ForwardsInOrder(replies, receiver)
  {
    var k := Pump(replies[1..], receiver).requests;
    AllTokensFirst(replies, k + 1);
    if k >= 1 {
      AllTokensFirst(replies, k);
    }
  }

  lemma ForwardsAfterBatch(replies: seq<RequestResult>, receiver: Capacity)
    requires |replies| > 0 && IsBatch(replies[0])
    requires |replies[0].value.events| > 0 && Takes(receiver, |replies[0].value.events|)
    requires ForwardsInOrder(replies[1..], Consume(receiver, |replies[0].value.events|))
    ensures ForwardsInOrder(replies, receiver)
  {
    var c := Consume(receiver, |replies[0].value.events|);
    var k := Pump(replies[1..], c).requests;
    AllTokensFirst(replies, k + 1);
    if k >= 1 {
      AllTokensFirst(replies, k);
    }
  }

  /** The tokens of the first `k` answers: the first answer's batch, then those of the next `k - 1`. */
  lemma AllTokensFirst(replies: seq<RequestResult>, k: nat)
    requires 0 < k <= |replies|
    ensures AllTokens(replies[..k]) == Batch(replies[0]) + AllTokens(replies[1..][..k - 1])
  {
    assert replies[..k][0] == replies[0];
    assert replies[..k][1..] == replies[1..][..k - 1];
  }

  /** A reply that is not a batch forwards nothing and is followed by another request. */
  lemma PumpRetries(reply: RequestResult, rest: seq<RequestResult>, receiver: Capacity)
    requires !IsBatch(reply)
    ensures var r := Pump([reply] + rest, receiver);
      var s := Pump(rest, receiver);
      r.forwarded == s.forwarded && r.requests == s.requests + 1 && r.exit == s.exit
  {
  }

  /** A receiver that takes one token of the batch [7, 8]: the pump stops after that first request. */
  lemma FailedForwardIsLastRequest()
    ensures Pump([Ok(NextDropEvents([OutputDropped(7), OutputDropped(8)])), Err("transport")], Remaining(1))
         == PumpRun([7], 1, ForwardFailed)
  {
    var events := [OutputDropped(7), OutputDropped(8)];
    assert Tokens(events)[..1] == [7];
  }
}
