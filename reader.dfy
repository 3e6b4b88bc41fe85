/**
 * clientLoop of subhandler/subscriptionHandler.go: the reader task of a connection. It reads frames, decodes each
 * into an envelope, forwards "start" and "stop" envelopes to the session, and returns after a "stop", after a
 * read error (forwarding a synthetic "disconnected") or after a decode error (forwarding an "error" envelope that
 * carries the error text).
 *
 * The socket's reads are given as the list of their outcomes; when that list runs out the reader is still
 * blocked in ReadMessage.
 */
module Reader {
  import opened Wrappers
  import opened GraphModels

  /** The outcome of one socket.ReadMessage: an error, or the frame's bytes. */
  datatype ReadOutcome = ReadFailed(err: string) | Received(data: Bytes)

  /** Why the reader returned, or Reading when it is still waiting for a frame. */
  datatype ReaderExit = Disconnected(err: string) | DecodeFailed(err: string) | StopReceived | Reading

  /** What the reader has done: the envelopes it forwarded, in order, why it stopped, and how many reads it made. */
  datatype Forwarding = Forwarding(messages: seq<GraphQLWSMessage>, exit: ReaderExit, readCount: nat)

  /** The synthetic envelope forwarded on a read error. */
  const DisconnectedMessage: GraphQLWSMessage := GraphQLWSMessage("", "disconnected", Value(JNull))

  /** The envelope forwarded on a decode error: type "error", the error text as payload. */
  function ErrorMessage(e: string): GraphQLWSMessage
  {
    GraphQLWSMessage("", "error", Value(JString(e)))
  }

  /** What one iteration of the read loop does with one read. */
  datatype ReadStep =
    | Skipped                                       // decoded, neither "start" nor "stop": dropped
    | Forwarded(msg: GraphQLWSMessage)              // a decoded "start": forwarded, reading goes on
    | Ended(msg: GraphQLWSMessage, exit: ReaderExit) // forwarded, then the reader returns

  /** One iteration of clientLoop's body on the outcome of its ReadMessage. */
  function Step(codec: JsonCodec, ro: ReadOutcome): (s: ReadStep)
    ensures s.Forwarded? ==> s.msg.msgType == "start"
    ensures s.Ended? ==> !s.exit.Reading?
  {
    match ro
    case ReadFailed(e) => Ended(DisconnectedMessage, Disconnected(e))
    case Received(d) =>
      match codec.unmarshalMessage(d)
      case Err(e) => Ended(ErrorMessage(e), DecodeFailed(e))
      case Ok(m) =>
        if m.msgType == "stop" then Ended(m, StopReceived)
        else if m.msgType == "start" then Forwarded(m)
        else Skipped
  }

  /**
   * The reader's behaviour on a list of read outcomes: the steps in order, until one ends the reader or the
   * outcomes run out.
   */
  function Forward(codec: JsonCodec, outcomes: seq<ReadOutcome>): (r: Forwarding)
    ensures r.readCount <= |outcomes|
    ensures r.exit.Reading? ==> r.readCount == |outcomes|
    decreases |outcomes|
  {
    if outcomes == [] then Forwarding([], Reading, 0)
    else
      match Step(codec, outcomes[0])
      case Ended(m, e) => Forwarding([m], e, 1)
      case Forwarded(m) =>
        var rest := Forward(codec, outcomes[1..]);
        Forwarding([m] + rest.messages, rest.exit, rest.readCount + 1)
      case Skipped =>
        var rest := Forward(codec, outcomes[1..]);
        Forwarding(rest.messages, rest.exit, rest.readCount + 1)
  }

  /** A reader that returned made at least one read and forwarded at least one envelope, the last being its end. */
  lemma {:induction false} ForwardEnd(codec: JsonCodec, outcomes: seq<ReadOutcome>)
    ensures var r := Forward(codec, outcomes);
            !r.exit.Reading? ==>
              0 < r.readCount && 0 < |r.messages| &&
              Step(codec, outcomes[r.readCount - 1]) == Ended(r.messages[|r.messages| - 1], r.exit)
    decreases |outcomes|
  {
    if outcomes != [] && !Step(codec, outcomes[0]).Ended? {
      var rest := Forward(codec, outcomes[1..]);
      ForwardEnd(codec, outcomes[1..]);
      if !rest.exit.Reading? {
        assert outcomes[rest.readCount + 1 - 1] == outcomes[1..][rest.readCount - 1];
      }
    }
  }

  /** Every forwarded envelope is a "start", except the last one of a reader that returned. */
  predicate StartsBeforeEnd(r: Forwarding)
  {
    forall i | 0 <= i < |r.messages| && (r.exit.Reading? || i < |r.messages| - 1) :: r.messages[i].msgType == "start"
  }

  /** Every forwarded envelope but the end one is a "start". */
  lemma {:induction false} ForwardStarts(codec: JsonCodec, outcomes: seq<ReadOutcome>)
    ensures StartsBeforeEnd(Forward(codec, outcomes))
    decreases |outcomes|
  {
    if outcomes != [] && !Step(codec, outcomes[0]).Ended? {
      var s := Step(codec, outcomes[0]);
      var rest := Forward(codec, outcomes[1..]);
      ForwardStarts(codec, outcomes[1..]);
      var here := if s.Forwarded? then [s.msg] else [];
      var r := Forward(codec, outcomes);
      assert r == Forwarding(here + rest.messages, rest.exit, rest.readCount + 1);
      forall i | 0 <= i < |r.messages| && (r.exit.Reading? || i < |r.messages| - 1)
        ensures r.messages[i].msgType == "start"
      {
        if i < |here| {
          assert r.messages[i] == s.msg && s.Forwarded?;
        } else {
          var j := i - |here|;
          assert r.messages[i] == rest.messages[j];
          assert rest.exit.Reading? || j < |rest.messages| - 1;
        }
      }
    }
  }

  /**
   * The shape of what the reader forwards: every envelope is a "start" except the last one of a reader that
   * returned, which is the "stop", a "disconnected" for a read error, or an "error" carrying the decode error's text.
   */
  lemma ForwardShape(codec: JsonCodec, outcomes: seq<ReadOutcome>)
    ensures var r := Forward(codec, outcomes);
            StartsBeforeEnd(r) &&
            (!r.exit.Reading? ==> 0 < r.readCount && |r.messages| > 0) &&
            (r.exit == StopReceived ==> r.messages[|r.messages| - 1].msgType == "stop") &&
            (r.exit.Disconnected? ==>
               r.messages[|r.messages| - 1] == DisconnectedMessage && outcomes[r.readCount - 1] == ReadFailed(r.exit.err)) &&
            (r.exit.DecodeFailed? ==> r.messages[|r.messages| - 1] == ErrorMessage(r.exit.err))
  {
    ForwardStarts(codec, outcomes);
    ForwardEnd(codec, outcomes);
  }

  /** The decoded "start" envelope of one read, if it is one. */
  function StartIn(codec: JsonCodec, ro: ReadOutcome): seq<GraphQLWSMessage>
  {
    if ro.Received? && codec.unmarshalMessage(ro.data).Ok? && codec.unmarshalMessage(ro.data).value.msgType == "start"
    then [codec.unmarshalMessage(ro.data).value]
    else []
  }

  /** The decoded "start" envelopes among some outcomes, in receipt order. */
  function Starts(codec: JsonCodec, rs: seq<ReadOutcome>): seq<GraphQLWSMessage>
  {
    if rs == [] then [] else StartIn(codec, rs[0]) + Starts(codec, rs[1..])
  }

  /** A read after which the reader returns: a read error, a frame that does not decode, or a "stop". */
  predicate Ends(codec: JsonCodec, ro: ReadOutcome)
  {
    match ro
    case ReadFailed(_) => true
    case Received(d) => codec.unmarshalMessage(d).Err? || codec.unmarshalMessage(d).value.msgType == "stop"
  }

  /** The envelope forwarded for a read that ends the reader. */
  function EndMessage(codec: JsonCodec, ro: ReadOutcome): GraphQLWSMessage
  {
    match ro
    case ReadFailed(_) => DisconnectedMessage
    case Received(d) =>
      match codec.unmarshalMessage(d)
      case Err(e) => ErrorMessage(e)
      case Ok(m) => m
  }

  /** Step against the reference predicates: it ends exactly on Ends, with EndMessage, and forwards only starts. */
  lemma StepAgrees(codec: JsonCodec, ro: ReadOutcome)
    ensures var s := Step(codec, ro);
            (s.Ended? <==> Ends(codec, ro)) &&
            (s.Ended? ==> s.msg == EndMessage(codec, ro)) &&
            (!s.Ended? ==> StartIn(codec, ro) == if s.Forwarded? then [s.msg] else [])
  {
  }

  /** How many reads came before the one that ended the reader (all of them when it is still reading). */
  function Examined(r: Forwarding): nat
  {
    if r.exit.Reading? || r.readCount == 0 then r.readCount else r.readCount - 1
  }

  /** The reader returns at the first read that ends it, and only then. */
  lemma {:induction false} ForwardEndsAtFirstEnd(codec: JsonCodec, outcomes: seq<ReadOutcome>)
    ensures var r := Forward(codec, outcomes);
            var n := Examined(r);
            (forall i | 0 <= i < n :: !Ends(codec, outcomes[i])) &&
            (!r.exit.Reading? <==> n < |outcomes| && Ends(codec, outcomes[n]))
    decreases |outcomes|
  {
    if outcomes != [] {
      StepAgrees(codec, outcomes[0]);
      if !Step(codec, outcomes[0]).Ended? {
        var rest := Forward(codec, outcomes[1..]);
        ForwardEndsAtFirstEnd(codec, outcomes[1..]);
        ForwardEnd(codec, outcomes[1..]);
        assert Examined(Forward(codec, outcomes)) == Examined(rest) + 1;
        assert forall i | 1 <= i <= Examined(rest) && i < |outcomes| :: outcomes[i] == outcomes[1..][i - 1];
      }
    }
  }

  /** What the reader forwards: the "start" envelopes of the reads before its end, then the end read's envelope. */
  lemma {:induction false} ForwardForwardsStarts(codec: JsonCodec, outcomes: seq<ReadOutcome>)
    ensures var r := Forward(codec, outcomes);
            var n := Examined(r);
            n <= |outcomes| &&
            r.messages == Starts(codec, outcomes[..n]) + (if r.exit.Reading? then [] else [EndMessage(codec, outcomes[n])])
    decreases |outcomes|
  {
    if outcomes != [] {
      var s := Step(codec, outcomes[0]);
      StepAgrees(codec, outcomes[0]);
      var r := Forward(codec, outcomes);
      if s.Ended? {
        assert r == Forwarding([s.msg], s.exit, 1);
        assert outcomes[..0] == [];
      } else {
        var rest := outcomes[1..];
        ForwardForwardsStarts(codec, rest);
        ForwardEnd(codec, rest);
        var r' := Forward(codec, rest);
        var n' := Examined(r');
        var here := if s.Forwarded? then [s.msg] else [];
        assert r == Forwarding(here + r'.messages, r'.exit, r'.readCount + 1);
        assert Examined(r) == n' + 1;
        var pre := outcomes[..n' + 1];
        assert pre[0] == outcomes[0] && pre[1..] == rest[..n'];
        assert Starts(codec, pre) == here + Starts(codec, rest[..n']);
        if !r'.exit.Reading? {
          assert outcomes[n' + 1] == rest[n'];
        }
      }
    }
  }

  /**
   * The reader against a reference description: it reads up to and including the first read that ends it (all
   * outcomes when none does), forwards the "start" envelopes of the reads before that one in receipt order, then
   * that read's envelope; the returned exit names that read.
   */
  lemma ForwardIsFilter(codec: JsonCodec, outcomes: seq<ReadOutcome>)
    ensures var r := Forward(codec, outcomes);
            var n := Examined(r);
            (forall i | 0 <= i < n :: !Ends(codec, outcomes[i])) &&
            (!r.exit.Reading? <==> n < |outcomes| && Ends(codec, outcomes[n])) &&
            r.messages == Starts(codec, outcomes[..n]) + (if r.exit.Reading? then [] else [EndMessage(codec, outcomes[n])])
  {
    ForwardEndsAtFirstEnd(codec, outcomes);
    ForwardForwardsStarts(codec, outcomes);
  }

  /** Nothing is forwarded after the reader returns: later outcomes are never read and change nothing. */
  lemma {:induction false} NothingAfterReturn(codec: JsonCodec, outcomes: seq<ReadOutcome>, later: seq<ReadOutcome>)
    requires !Forward(codec, outcomes).exit.Reading?
    ensures Forward(codec, outcomes + later) == Forward(codec, outcomes)
    decreases |outcomes|
  {
    assert (outcomes + later)[0] == outcomes[0];
    if !Step(codec, outcomes[0]).Ended? {
      assert (outcomes + later)[1..] == outcomes[1..] + later;
      NothingAfterReturn(codec, outcomes[1..], later);
    }
  }

  /** clientLoop: the read loop itself, forwarding into `messages` until it returns or the outcomes run out. */
  method ClientLoop(codec: JsonCodec, outcomes: seq<ReadOutcome>) returns (r: Forwarding)
    ensures r == Forward(codec, outcomes)
  {
    var messages: seq<GraphQLWSMessage> := [];
    var i := 0;
    while i < |outcomes|
      invariant 0 <= i <= |outcomes|
      invariant var rest := Forward(codec, outcomes[i..]);
                Forward(codec, outcomes) == Forwarding(messages + rest.messages, rest.exit, i + rest.readCount)
      decreases |outcomes| - i
    {
      ghost var rest := Forward(codec, outcomes[i + 1..]);
      ghost var s := Step(codec, outcomes[i]);
      assert outcomes[i..][0] == outcomes[i] && outcomes[i..][1..] == outcomes[i + 1..];
      match outcomes[i] {
        case ReadFailed(e) =>
          return Forwarding(messages + [DisconnectedMessage], Disconnected(e), i + 1);
        case Received(d) =>
          match codec.unmarshalMessage(d) {
            case Err(e) =>
              return Forwarding(messages + [ErrorMessage(e)], DecodeFailed(e), i + 1);
            case Ok(m) =>
              if m.msgType == "start" || m.msgType == "stop" {
                messages := messages + [m];
              }
              if m.msgType == "stop" {
                return Forwarding(messages, StopReceived, i + 1);
              }
          }
      }
      assert Forward(codec, outcomes[i..]) == Forwarding((if s.Forwarded? then [s.msg] else []) + rest.messages, rest.exit, rest.readCount + 1);
      i := i + 1;
    }
    r := Forwarding(messages, Reading, i);
  }
}
