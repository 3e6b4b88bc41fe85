/**
 * subhandler/helpers.go: the `Subscribe` function resolvers call to declare interest in a topic (it finds the
 * session's subscribe function in the request context), and `sendGraphWSMessage`, which writes one envelope to
 * the websocket.
 */
module Helpers {
  import opened Wrappers
  import opened GraphModels

  /** The context key under which a session stores its subscribe function (subhandler/consts.go). */
  const SubscribeTopicKey: string := "subscription-subscribe-function"
  /** The context key under which a session stores its connection id (subhandler/consts.go). */
  const WsIdKey: string := "graphql-ws-id"
  /** The error Subscribe returns when the context holds no subscribe function. */
  const NoSubscribeFunction: string := "no subscribe function in context"

  /** A context value: the subscribe function of one session (named by its owner), or any other value. */
  datatype CtxValue = SubscribeFunc(owner: nat) | Other(text: string)

  /** A context.Context as a chain of context.WithValue layers over a root context that holds no value. */
  datatype Context = Root | WithValue(parent: Context, key: string, val: CtxValue)

  /** The keys some layer of the context binds. */
  function Keys(ctx: Context): set<string>
  {
    match ctx
    case Root => {}
    case WithValue(parent, k, _) => Keys(parent) + {k}
  }

  /** ctx.Value(key): the innermost layer binding key wins; nil when no layer binds it. */
  function Lookup(ctx: Context, key: string): (r: Option<CtxValue>)
    ensures r.Some? <==> key in Keys(ctx)
    ensures ctx.WithValue? && ctx.key == key ==> r == Some(ctx.val)
    ensures ctx.WithValue? && ctx.key != key ==> r == Lookup(ctx.parent, key)
  {
    match ctx
    case Root => None
    case WithValue(parent, k, v) => if k == key then Some(v) else Lookup(parent, key)
  }

  /** One call of a session's subscribe function with a topic. */
  datatype Invocation = Invocation(owner: nat, topic: string)

  /**
   * What a call of Subscribe does: it returns (nil or an error) after making the listed calls, or it panics
   * because the value under the key is not a `func(string)` (the unchecked type assertion).
   */
  datatype SubscribeOutcome = Returned(err: Option<string>, invoked: seq<Invocation>) | Panicked

  /**
   * Subscribe(ctx, topic): when the context holds a subscribe function it is called once with the topic and nil
   * is returned; when it holds none, an error is returned and nothing is called.
   */
  function Subscribe(ctx: Context, topic: string): (r: SubscribeOutcome)
    ensures SubscribeTopicKey !in Keys(ctx) ==> r == Returned(Some(NoSubscribeFunction), [])
    ensures Lookup(ctx, SubscribeTopicKey).Some? && Lookup(ctx, SubscribeTopicKey).value.SubscribeFunc? ==>
              r == Returned(None, [Invocation(Lookup(ctx, SubscribeTopicKey).value.owner, topic)])
    ensures Lookup(ctx, SubscribeTopicKey).Some? && Lookup(ctx, SubscribeTopicKey).value.Other? ==> r.Panicked?
  {
    match Lookup(ctx, SubscribeTopicKey)
    case None => Returned(Some(NoSubscribeFunction), [])
    case Some(SubscribeFunc(owner)) => Returned(None, [Invocation(owner, topic)])
    case Some(Other(_)) => Panicked
  }

  /** The calls made when resolvers call Subscribe once per topic of ts, in order. */
  function InvokedBy(ctx: Context, ts: seq<string>): seq<Invocation>
  {
    if ts == [] then []
    else
      var head := match Subscribe(ctx, ts[0]) case Returned(_, calls) => calls case Panicked => [];
      head + InvokedBy(ctx, ts[1..])
  }

  /** The context a session builds: its connection id, then its own subscribe function on top. */
  function SessionContext(request: Context, wsId: string, owner: nat): (r: Context)
    ensures Keys(r) == Keys(request) + {WsIdKey, SubscribeTopicKey}
    ensures Lookup(r, SubscribeTopicKey) == Some(SubscribeFunc(owner))
  {
    WithValue(WithValue(request, WsIdKey, Other(wsId)), SubscribeTopicKey, SubscribeFunc(owner))
  }

  /**
   * In a session's context, resolvers reach that session's subscribe function and no other: every declared topic
   * is passed to it, unchanged and in order, whatever the request context already held.
   */
  lemma {:induction false} SessionContextDeclares(request: Context, wsId: string, owner: nat, ts: seq<string>)
    ensures InvokedBy(SessionContext(request, wsId, owner), ts) == seq(|ts|, i requires 0 <= i < |ts| => Invocation(owner, ts[i]))
    ensures forall t :: Subscribe(SessionContext(request, wsId, owner), t) == Returned(None, [Invocation(owner, t)])
    decreases |ts|
  {
    var ctx := SessionContext(request, wsId, owner);
    if ts != [] {
      SessionContextDeclares(request, wsId, owner, ts[1..]);
      assert Subscribe(ctx, ts[0]) == Returned(None, [Invocation(owner, ts[0])]);
    }
  }

  /** Outside a session (no subscribe function in the context), Subscribe calls nothing and always reports the error. */
  lemma {:induction false} NoFunctionNoCalls(ctx: Context, ts: seq<string>)
    requires SubscribeTopicKey !in Keys(ctx)
    ensures InvokedBy(ctx, ts) == []
    ensures forall t :: Subscribe(ctx, t) == Returned(Some(NoSubscribeFunction), [])
    decreases |ts|
  {
    if ts != [] {
      NoFunctionNoCalls(ctx, ts[1..]);
    }
  }

  /** The frame sendGraphWSMessage writes: the message's JSON, or an empty frame when marshalling failed. */
  function Frame(codec: JsonCodec, msg: GraphQLWSMessage): Bytes
  {
    match codec.marshalMessage(msg)
    case Ok(d) => d
    case Err(_) => []
  }

  /** The frames written for a sequence of messages, one per message. */
  function Frames(codec: JsonCodec, msgs: seq<GraphQLWSMessage>): (r: seq<Bytes>)
    ensures |r| == |msgs|
  {
    seq(|msgs|, i requires 0 <= i < |msgs| => Frame(codec, msgs[i]))
  }

  /** Appending one message appends its one frame. */
  lemma FramesSnoc(codec: JsonCodec, msgs: seq<GraphQLWSMessage>, m: GraphQLWSMessage)
    ensures Frames(codec, msgs + [m]) == Frames(codec, msgs) + [Frame(codec, m)]
  {
    assert forall i | 0 <= i < |msgs| :: (msgs + [m])[i] == msgs[i];
  }

  /**
   * The write side of a websocket connection. The outcome of each write comes from the transport: writeOk(k) is
   * whether the k-th write on this connection succeeds. `written` is every frame handed to WriteMessage.
   */
  class Socket {
    var written: seq<Bytes>
    const writeOk: nat -> bool

    constructor (writeOk: nat -> bool)
      ensures written == [] && this.writeOk == writeOk
    {
      written := [];
      this.writeOk := writeOk;
    }

    /** WriteMessage: one frame is written; the result is the transport's outcome for this write. */
    method WriteMessage(data: Bytes) returns (ok: bool)
      modifies this
      ensures written == old(written) + [data]
      ensures ok == writeOk(|old(written)|)
    {
      ok := writeOk(|written|);
      written := written + [data];
    }
  }

  /**
   * sendGraphWSMessage: writes the message's frame and returns exactly the write's outcome; a marshalling error
   * is dropped (an empty frame is written) and never reported.
   */
  method SendGraphWSMessage(socket: Socket, codec: JsonCodec, msg: GraphQLWSMessage) returns (ok: bool)
    modifies socket
    ensures socket.written == old(socket.written) + [Frame(codec, msg)]
    ensures ok == socket.writeOk(|old(socket.written)|)
  {
    var data := Frame(codec, msg);
    ok := socket.WriteMessage(data);
  }
}
