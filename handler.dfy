/**
 * SubscriptionHandler and ServeHTTP of subhandler/subscriptionHandler.go, in the imperative form of the source:
 * the session's `topics` map is updated in place by SubTopic, ServeHTTP runs a `for subRunning` loop over the
 * events it receives and then unsubscribes every recorded topic. Each method is proved against the SessionSpec
 * and Registry functions.
 */
module Handler {
  import opened Wrappers
  import opened GraphModels
  import opened Helpers
  import opened Notifications
  import opened Registry
  import opened SessionSpec

  /** The state ServeHTTP's closures share for one connection: the topics map, the notifier, the callback. */
  class Session {
    const notifier: Notifier?
    const onChange: Callback
    var topics: map<string, string>
    /** The graphql.Do calls made so far, which index the engine oracle. */
    var queries: nat

    constructor (notifier: Notifier?, onChange: Callback)
      ensures this.notifier == notifier && this.onChange == onChange && topics == map[] && queries == 0
    {
      this.notifier := notifier;
      this.onChange := onChange;
      topics := map[];
      queries := 0;
    }

    /** The notifier's log as this session sees it; a nil notifier has none. */
    ghost function Log(): seq<Call>
      reads this, notifier
    {
      if notifier == null then [] else notifier.log
    }

    /**
     * subTopic: the registry's SubTopic applied in place; the notifier gets a Subscribe call only for a topic not
     * yet in the map.
     */
    method SubTopic(topic: string)
      modifies this, notifier
      ensures var s := Registry.SubTopic(State(old(topics), old(Log())), notifier != null, onChange, topic);
              topics == s.topics && Log() == s.calls
    {
      if topic !in topics {
        if notifier != null {
          notifier.Subscribe(topic, onChange);
        }
        topics := topics[topic := topic];
      }
    }

    /**
     * graphql.Do with this session's context: the engine's result, after its resolvers have passed each declared
     * topic to SubTopic, in order.
     */
    method Execute(env: Env, request: GraphQLWSRequest, root: Option<NotificationData>) returns (res: GraphQLResult)
      modifies this, notifier
      ensures var ex := env.execute(old(queries), request.payload, root);
              var s := DeclareAll(State(old(topics), old(Log())), notifier != null, onChange, ex.declared);
              res == ex.result && topics == s.topics && Log() == s.calls && queries == old(queries) + 1
    {
      var k := queries;
      var ex := env.execute(k, request.payload, root);
      ghost var s := State(topics, Log());
      var i := 0;
      while i < |ex.declared|
        invariant 0 <= i <= |ex.declared|
        invariant topics == s.topics && Log() == s.calls
        invariant DeclareAll(s, notifier != null, onChange, ex.declared[i..])
                  == DeclareAll(State(old(topics), old(Log())), notifier != null, onChange, ex.declared)
        decreases |ex.declared| - i
      {
        assert ex.declared[i..][0] == ex.declared[i] && ex.declared[i..][1..] == ex.declared[i + 1..];
        ghost var s' := Registry.SubTopic(s, notifier != null, onChange, ex.declared[i]);
        assert DeclareAll(s, notifier != null, onChange, ex.declared[i..])
               == DeclareAll(s', notifier != null, onChange, ex.declared[i + 1..]);
        SubTopic(ex.declared[i]);
        s := s';
        i := i + 1;
      }
      res := ex.result;
      queries := k + 1;
    }

    /** dryRunQuery: one execution without root object; true exactly when it reports no error. */
    method DryRunQuery(env: Env, request: GraphQLWSRequest) returns (ok: bool)
      modifies this, notifier
      ensures var ex := env.execute(old(queries), request.payload, None);
              var s := DeclareAll(State(old(topics), old(Log())), notifier != null, onChange, ex.declared);
              ok == (|ex.result.errors| == 0) && topics == s.topics && Log() == s.calls && queries == old(queries) + 1
    {
      var res := Execute(env, request, None);
      ok := |res.errors| == 0;
    }

    /**
     * runQuery: one execution with the notification data as root object, then one "data" envelope with the
     * request's Id and the result; true exactly when the result has no error and the write succeeded.
     */
    method RunQuery(env: Env, socket: Socket, request: GraphQLWSRequest, data: NotificationData) returns (ok: bool)
      modifies this, notifier, socket
      ensures var ex := env.execute(old(queries), request.payload, Some(data));
              var s := DeclareAll(State(old(topics), old(Log())), notifier != null, onChange, ex.declared);
              topics == s.topics && Log() == s.calls && queries == old(queries) + 1 &&
              socket.written == old(socket.written) + [Frame(env.codec, DataMessage(request, ex.result))] &&
              ok == (|ex.result.errors| == 0 && socket.writeOk(|old(socket.written)|))
    {
      var res := Execute(env, request, Some(data));
      var sent := SendGraphWSMessage(socket, env.codec, GraphQLWSMessage(request.id, "data", ExecResult(res)));
      ok := |res.errors| == 0 && sent;
    }

    /**
     * One iteration of the `for subRunning` loop: the select takes one event and does what SessionSpec.Advance
     * says; the result is the new value of subRunning.
     */
    method HandleEvent(env: Env, socket: Socket, m: GraphQLWSRequest, e: Event,
                       ghost p: Progress, ghost log0: seq<Call>, ghost written0: seq<Bytes>)
      returns (running: bool, ghost t: Turn)
      requires topics == p.reg.topics && Log() == log0 + p.reg.calls && queries == p.queries
      requires socket.written == written0 + Frames(env.codec, p.sent)
      modifies this, notifier, socket
      ensures t == Advance(Conn(env, socket.writeOk, |written0|, notifier != null, onChange), m, e, p)
      ensures running == t.Continue?
      ensures topics == t.next.reg.topics && Log() == log0 + t.next.reg.calls && queries == t.next.queries
      ensures socket.written == written0 + Frames(env.codec, t.next.sent)
    {
      var conn := Conn(env, socket.writeOk, |written0|, notifier != null, onChange);
      t := Advance(conn, m, e, p);
      match e {
        case Timeout =>
          running := true;
        case Client(msg) =>
          running := !EndsStream(msg);
        case Notify(data) =>
          ghost var ex := env.execute(p.queries, m.payload, Some(data));
          FramesSnoc(env.codec, p.sent, DataMessage(m, ex.result));
          DeclareAllShift(p.reg, log0, conn.hasNotifier, onChange, ex.declared);
          running := RunQuery(env, socket, m, data);
      }
    }

    /**
     * The `for subRunning` loop, entered after a dry run without errors: it consumes the events from i0 on and
     * does what SessionSpec.Stream says, from the registry and envelopes it was given.
     */
    method Loop(env: Env, socket: Socket, m: GraphQLWSRequest, trace: seq<Event>, i0: nat,
                ghost p0: Progress, ghost log0: seq<Call>, ghost written0: seq<Bytes>)
      returns (exit: Exit, ghost p: Progress)
      requires i0 <= |trace| && p0.consumed == i0
      requires topics == p0.reg.topics && Log() == log0 + p0.reg.calls && queries == p0.queries
      requires socket.written == written0 + Frames(env.codec, p0.sent)
      modifies this, notifier, socket
      ensures Stream(Conn(env, socket.writeOk, |written0|, notifier != null, onChange), m, trace[i0..], p0)
              == Outcome(exit, p)
      ensures topics == p.reg.topics && Log() == log0 + p.reg.calls && queries == p.queries
      ensures socket.written == written0 + Frames(env.codec, p.sent)
    {
      var conn := Conn(env, socket.writeOk, |written0|, notifier != null, onChange);
      ghost var out := Stream(conn, m, trace[i0..], p0);
      p := p0;
      exit := Pending;
      var running := true;
      var i := i0;
      while running
        invariant i0 <= i <= |trace| && p.consumed == i
        invariant topics == p.reg.topics && Log() == log0 + p.reg.calls && queries == p.queries
        invariant socket.written == written0 + Frames(env.codec, p.sent)
        invariant running ==> Stream(conn, m, trace[i..], p) == out
        invariant !running ==> out == Outcome(exit, p)
        decreases |trace| - i
      {
        if i == |trace| {
          // No event left: the select is still waiting.
          assert trace[i..] == [];
          return Pending, p;
        }
        assert trace[i..][0] == trace[i] && trace[i..][1..] == trace[i + 1..];
        ghost var t;
        running, t := HandleEvent(env, socket, m, trace[i], p, log0, written0);
        if !running {
          // Only a forwarded envelope stops the loop; a notification ends it through a failed run.
          exit := if trace[i].Client? then Stopped else RunEnded;
        }
        p := t.next;
        i := i + 1;
      }
    }

    /**
     * ServeHTTP up to the cleanup: AwaitingStart (the first envelope forwarded, or the timer), the conversion of
     * that envelope, the dry run, and the streaming loop when the dry run had no error.
     */
    method Serve(env: Env, socket: Socket, trace: seq<Event>, ghost log0: seq<Call>, ghost written0: seq<Bytes>)
      returns (exit: Exit, ghost p: Progress)
      requires topics == map[] && Log() == log0 && socket.written == written0 && queries == 0
      modifies this, notifier, socket
      ensures Run(Conn(env, socket.writeOk, |written0|, notifier != null, onChange), trace) == Outcome(exit, p)
      ensures topics == p.reg.topics && Log() == log0 + p.reg.calls && queries == p.queries
      ensures socket.written == written0 + Frames(env.codec, p.sent)
    {
      var conn := Conn(env, socket.writeOk, |written0|, notifier != null, onChange);
      ghost var st := StartOf(env.codec, trace);
      assert Frames(env.codec, []) == [] && log0 + [] == log0 && Empty.topics == map[];
      var msg := GraphQLWSMessage("", "nil", Value(JNull));
      var f := FirstReceived(trace, 0);
      if f < |trace| && trace[f].Client? {
        msg := trace[f].msg;
      }
      if msg.msgType == "nil" {
        assert st == NoMessage(if f == |trace| then f else f + 1);
        return NoStart, Progress(Empty, [], 0, st.consumed);
      }
      var converted := ToGraphQLRequest(env.codec, msg);
      if converted.Err? {
        assert st == Unconvertible(f);
        return BadStart, Progress(Empty, [], 0, f + 1);
      }
      var m := converted.value;
      assert st == Converted(m, f);

      // Validating: the dry run.
      var running := DryRunQuery(env, m);
      ghost var ex := env.execute(0, m.payload, None);
      p := Progress(DeclareAll(Empty, conn.hasNotifier, onChange, ex.declared), [], 1, f + 1);
      DeclareAllShift(Empty, log0, conn.hasNotifier, onChange, ex.declared);

      // Streaming, while the dry run and every run since went well.
      if running {
        exit, p := Loop(env, socket, m, trace, f + 1, p, log0, written0);
      } else {
        exit := DryRunFailed;
      }
    }

    /**
     * The cleanup after the loop: with a notifier, one Unsubscribe with the session's callback for each entry of
     * the map (its value, which equals its key), in map order; with none, nothing.
     */
    method Cleanup()
      requires forall k | k in topics :: topics[k] == k
      modifies notifier
      ensures |old(Log())| <= |Log()| && Log()[..|old(Log())|] == old(Log())
      ensures CleanupLog(Log()[|old(Log())|..], if notifier != null then topics.Keys else {}, onChange)
    {
      assert UnsubscribeCalls({}, onChange) == {};
      if notifier != null {
        var remaining := topics.Keys;
        ghost var done: seq<Call> := [];
        while remaining != {}
          invariant remaining <= topics.Keys
          invariant notifier.log == old(notifier.log) + done
          invariant multiset(done) + multiset(UnsubscribeCalls(remaining, onChange))
                    == multiset(UnsubscribeCalls(topics.Keys, onChange))
          decreases remaining
        {
          var k :| k in remaining;
          var c := Unsubscribed(k, onChange);
          assert UnsubscribeCalls(remaining, onChange) == UnsubscribeCalls(remaining - {k}, onChange) + {c};
          assert c !in UnsubscribeCalls(remaining - {k}, onChange);
          notifier.Unsubscribe(topics[k], onChange);
          done := done + [c];
          remaining := remaining - {k};
        }
        assert notifier.log[|old(notifier.log)|..] == done;
      }
    }
  }

  /** A SubscriptionHandler: the injected notifier, which may be nil, shared by all its connections. */
  class SubscriptionHandler {
    const notifier: Notifier?

    /** MakeSubscriptionHandler. */
    constructor (notifier: Notifier?)
      ensures this.notifier == notifier
    {
      this.notifier := notifier;
    }

    /**
     * ServeHTTP for one upgraded connection, given the events its session receives. What it sends and the calls
     * it makes before cleanup are those of SessionSpec.Run; then, when the loop was left, every recorded topic is
     * unsubscribed once with the connection's callback, in map order.
     */
    method ServeHTTP(env: Env, socket: Socket, onChange: Callback, trace: seq<Event>) returns (exit: Exit)
      modifies notifier, socket
      ensures var out := Run(Conn(env, socket.writeOk, |old(socket.written)|, notifier != null, onChange), trace);
              exit == out.exit &&
              socket.written == old(socket.written) + Frames(env.codec, out.progress.sent)
      ensures notifier != null ==>
                var out := Run(Conn(env, socket.writeOk, |old(socket.written)|, true, onChange), trace);
                var k := |old(notifier.log)| + |out.progress.reg.calls|;
                k <= |notifier.log| && notifier.log[..k] == old(notifier.log) + out.progress.reg.calls &&
                CleanupLog(notifier.log[k..], if CleansUp(exit) then out.progress.reg.topics.Keys else {}, onChange)
    {
      var conn := Conn(env, socket.writeOk, |socket.written|, notifier != null, onChange);
      ghost var log0 := if notifier == null then [] else notifier.log;
      ghost var written0 := socket.written;
      var session := new Session(notifier, onChange);
      ghost var p;
      exit, p := session.Serve(env, socket, trace, log0, written0);
      if exit.Pending? || exit.NoStart? || exit.BadStart? {
        return;
      }
      SessionKeepsInv(conn, trace);

      // Terminating: unsubscribe every recorded topic, in map order.
      session.Cleanup();
    }
  }
}
