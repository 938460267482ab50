/**
  The DTX message client as the instruments layer sees it, and the
  `InstrumentsClient.Invoke` / `InstrumentsClient.Call` contract on top of it.

  The client itself (framing, fragmentation, the dispatch loop) is abstract: its
  state is a message-id counter, the log of messages written, the log of message
  ids a caller waited on, the reply map the dispatch loop fills, the channel
  table `MakeChannel` consults, the arguments the auxiliary-buffer encoder
  refuses, and the selector-to-handler callback table.
*/
module Dtx {
  import opened Wrappers
  import opened Values
  import opened Errors

  /** The unsolicited-message handlers the profilers install. */
  datatype Handler = CpuMemorySampler | NetworkSampler | GraphicSampler

  /** One message written to the connection. */
  datatype DtxMessage = DtxMessage(
    msgId: nat,
    selector: string,
    args: seq<Value>,
    channel: nat,
    expectsReply: bool)

  datatype DtxClient = DtxClient(
    nextMsgId: nat,                     // the id the next send is given
    sent: seq<DtxMessage>,              // messages written, oldest first
    awaited: seq<nat>,                  // message ids whose reply a caller waited for
    replies: map<nat, Value>,           // reply payload per message id, as dispatched
    writable: bool,                     // whether a write to the connection succeeds
    channels: map<string, nat>,         // MakeChannel outcome per service name
    unencodable: set<Value>,            // arguments AppendObject refuses
    callbacks: map<string, Handler>)    // one handler per selector

  /** The outcome of an operation together with the client state it leaves. */
  datatype Step<+T> = Step(result: Result<T, Error>, client: DtxClient)

  /** Message ids are strictly increasing in send order and below the counter. */
  ghost predicate WellFormed(c: DtxClient) {
    && (forall i :: 0 <= i < |c.sent| ==> c.sent[i].msgId < c.nextMsgId)
    && (forall i, j :: 0 <= i < j < |c.sent| ==> c.sent[i].msgId < c.sent[j].msgId)
  }

  /** `MakeChannel`: the channel id bound to a service name, or a refusal. */
  function RequestChannel(c: DtxClient, name: string): (r: Result<nat, Error>)
    ensures r.Success? <==> name in c.channels
    ensures r.Success? ==> r.value == c.channels[name]
    ensures r.Failure? ==> r.error == ChannelRefused(name)
  {
    if name in c.channels then Success(c.channels[name]) else Failure(ChannelRefused(name))
  }

  /** `SendDTXMessage`: writes one message under a fresh id, or fails having written nothing. */
  function Send(c: DtxClient, selector: string, args: seq<Value>, channel: nat, expectsReply: bool)
    : (s: Step<nat>)
    ensures s.result.Failure? ==> s.client == c && s.result.error == SendFailed
    ensures s.result.Success? <==> c.writable
    ensures s.result.Success? ==>
      && s.result.value == c.nextMsgId
      && s.client == c.(nextMsgId := c.nextMsgId + 1,
                        sent := c.sent + [DtxMessage(c.nextMsgId, selector, args, channel, expectsReply)])
  {
    if !c.writable then Step(Failure(SendFailed), c)
    else
      var msg := DtxMessage(c.nextMsgId, selector, args, channel, expectsReply);
      Step(Success(c.nextMsgId), c.(nextMsgId := c.nextMsgId + 1, sent := c.sent + [msg]))
  }

  /** `GetResult`: waits for the reply to `msgId`; a reply that never comes fails the wait. */
  function GetResult(c: DtxClient, msgId: nat): (s: Step<Value>)
    ensures s.client == c.(awaited := c.awaited + [msgId])
    ensures s.result.Success? <==> msgId in c.replies
    ensures s.result.Success? ==> s.result.value == c.replies[msgId]
    ensures s.result.Failure? ==> s.result.error == ReplyFailed(msgId)
  {
    var c' := c.(awaited := c.awaited + [msgId]);
    if msgId in c.replies then Step(Success(c.replies[msgId]), c')
    else Step(Failure(ReplyFailed(msgId)), c')
  }

  /** `InstrumentsClient.Invoke` (pkg/libimobiledevice/instruments.go:28-39). */
  function Invoke(c: DtxClient, selector: string, args: seq<Value>, channel: nat, expectsReply: bool)
    : (s: Step<Option<Value>>)
    // a failed send is returned as is, and no reply is waited for
    ensures !c.writable ==> s == Step(Failure(SendFailed), c)
    // a successful send writes exactly one message, under the current counter value
    ensures c.writable ==>
      s.client.sent == c.sent + [DtxMessage(c.nextMsgId, selector, args, channel, expectsReply)]
      && s.client.nextMsgId == c.nextMsgId + 1
    // with a reply expected, the wait is keyed by exactly the id the send returned
    ensures c.writable && expectsReply ==>
      && s.client.awaited == c.awaited + [c.nextMsgId]
      && (s.result.Success? <==> c.nextMsgId in c.replies)
      && (s.result.Success? ==> s.result.value == Some(c.replies[c.nextMsgId]))
    // without one, a successful send yields no result and no error, and nothing is awaited
    ensures c.writable && !expectsReply ==>
      s.result == Success(None) && s.client.awaited == c.awaited
    // the reply map, channel table, encoder and callbacks are untouched
    ensures s.client.replies == c.replies && s.client.channels == c.channels
    ensures s.client.unencodable == c.unencodable && s.client.callbacks == c.callbacks
  {
    var sent := Send(c, selector, args, channel, expectsReply);
    if sent.result.Failure? then Step(Failure(sent.result.error), sent.client)
    else if expectsReply then
      var got := GetResult(sent.client, sent.result.value);
      if got.result.Failure? then Step(Failure(got.result.error), got.client)
      else Step(Success(Some(got.result.value)), got.client)
    else Step(Success(None), sent.client)
  }

  /** `AuxBuffer.AppendObject` over the arguments in order; the first refused one aborts. */
  function AppendObjects(c: DtxClient, params: seq<Value>): (r: Result<seq<Value>, Error>)
    ensures r.Success? <==> (forall i :: 0 <= i < |params| ==> params[i] !in c.unencodable)
    ensures r.Success? ==> r.value == params
    ensures r.Failure? ==>
      exists i :: (0 <= i < |params| && r.error == EncodeFailed(params[i])
                   && params[i] in c.unencodable
                   && forall j :: 0 <= j < i ==> params[j] !in c.unencodable)
    decreases |params|
  {
    if |params| == 0 then Success([])
    else if params[0] in c.unencodable then Failure(EncodeFailed(params[0]))
    else
      var rest := AppendObjects(c, params[1..]);
      if rest.Failure? then
        Failure(rest.error)
      else
        assert params == [params[0]] + params[1..];
        Success([params[0]] + rest.value)
  }

  /** `InstrumentsClient.Call` (pkg/libimobiledevice/instruments.go:45-58). */
  function Call(c: DtxClient, channel: string, selector: string, params: seq<Value>)
    : (s: Step<Option<Value>>)
    // a refused channel aborts before anything is sent
    ensures channel !in c.channels ==> s == Step(Failure(ChannelRefused(channel)), c)
    // an argument the encoder refuses aborts before anything is sent
    ensures channel in c.channels && AppendObjects(c, params).Failure? ==>
      s.client == c && s.result.Failure? && s.result.error.EncodeFailed?
    // otherwise the call is one reply-expecting invoke on the returned channel id
    ensures channel in c.channels && AppendObjects(c, params).Success? ==>
      s == Invoke(c, selector, params, c.channels[channel], true)
  {
    var id := RequestChannel(c, channel);
    if id.Failure? then Step(Failure(id.error), c)
    else
      var args := AppendObjects(c, params);
      if args.Failure? then Step(Failure(args.error), c)
      else Invoke(c, selector, args.value, id.value, true)
  }

  /** `RegisterCallback`: installs `h` for `selector`, replacing any earlier handler. */
  function RegisterCallback(c: DtxClient, selector: string, h: Handler): (c': DtxClient)
    ensures c'.callbacks.Keys == c.callbacks.Keys + {selector}
    ensures c'.callbacks[selector] == h
    ensures forall s :: s in c.callbacks && s != selector ==> c'.callbacks[s] == c.callbacks[s]
    ensures c' == c.(callbacks := c'.callbacks)
  {
    c.(callbacks := c.callbacks[selector := h])
  }

  // ---------------------------------------------------------------------
  // Properties relating several calls

  /** Every invoke keeps message ids strictly increasing and never reuses one. */
  lemma InvokePreservesWellFormed(c: DtxClient, selector: string, args: seq<Value>, channel: nat, expectsReply: bool)
    requires WellFormed(c)
    ensures WellFormed(Invoke(c, selector, args, channel, expectsReply).client)
    ensures Invoke(c, selector, args, channel, expectsReply).client.nextMsgId >= c.nextMsgId
  {
    var s := Invoke(c, selector, args, channel, expectsReply);
    if c.writable {
      var sent := s.client.sent;
      assert sent == c.sent + [DtxMessage(c.nextMsgId, selector, args, channel, expectsReply)];
      forall i, j | 0 <= i < j < |sent|
        ensures sent[i].msgId < sent[j].msgId
      {
        if j == |sent| - 1 {
          assert sent[i] == c.sent[i];
        } else {
          assert sent[i] == c.sent[i] && sent[j] == c.sent[j];
        }
      }
      forall i | 0 <= i < |sent|
        ensures sent[i].msgId < s.client.nextMsgId
      {
        if i < |c.sent| {
          assert sent[i] == c.sent[i];
        }
      }
    }
  }

  /**
    Reply correlation: two reply-expecting invokes in a row each resolve with the
    reply to their own message id, whatever order the replies arrived in.
  */
  lemma InvokesCorrelateByMessageId(c: DtxClient, selA: string, argsA: seq<Value>, selB: string,
                                    argsB: seq<Value>, channel: nat)
    requires WellFormed(c) && c.writable
    requires c.nextMsgId in c.replies && c.nextMsgId + 1 in c.replies
    ensures var a := Invoke(c, selA, argsA, channel, true);
            var b := Invoke(a.client, selB, argsB, channel, true);
            && a.result == Success(Some(c.replies[c.nextMsgId]))
            && b.result == Success(Some(c.replies[c.nextMsgId + 1]))
            && b.client.awaited == c.awaited + [c.nextMsgId, c.nextMsgId + 1]
            && WellFormed(b.client)
  {
    var a := Invoke(c, selA, argsA, channel, true);
    InvokePreservesWellFormed(c, selA, argsA, channel, true);
    InvokePreservesWellFormed(a.client, selB, argsB, channel, true);
  }
}
