# go-subscription-handler: a verified model of the subscription session

This project models the core of `subhandler`, a GraphQL-over-WebSocket subscription handler written in Go
(graphql-ws protocol).

## The connection lifecycle

For each connection, `ServeHTTP` does the following:

1. Starts a reader task (`clientLoop`) that forwards "start" and "stop" envelopes.
2. Waits up to two seconds for the first forwarded envelope.
3. Converts that envelope into a typed request (`ToGraphQLRequest`).
4. Runs the query once as a dry run. The query's resolvers declare topics through `Subscribe`, which reaches the
   connection's `subTopic` closure. Each new topic is recorded once in the `topics` map and subscribed once on the
   injected `Notifier`.
5. Loops while it runs. Each notification re-runs the query and sends one "data" envelope. A "stop" or a
   synthetic "disconnected" ends the loop.
6. Unsubscribes every recorded topic.

## How it is modelled

Concurrency is replaced by a sequential trace. The session consumes a trace of the events it receives, in order:

- the start timer firing (`Timeout`);
- an envelope forwarded by the reader (`Client`);
- a notification delivered to its callback (`Notify`).

Four collaborators are oracles, and every result is stated for any oracle:

- **The query engine (`graphql.Do`):** a function from the session's query number (0 for the dry run), the
  request and the root object to the result and the topics its resolvers declared. Because the number is an
  argument, a run may answer differently from an identical earlier one, as a resolver reading the clock does.
- **`encoding/json`:** four partial functions (`JsonCodec`).
- **Each socket write:** succeeds or fails as `writeOk(k)` says for the k-th write on the connection.
- **The `Notifier`:** observed through the log of its `Subscribe` and `Unsubscribe` calls.

## Modules

The modules follow the source files:

- **`GraphModels`** (`graph_models.dfy`): the envelope types and `ToGraphQLRequest`. Pure.
- **`Helpers`** (`helpers.dfy`): contexts, with `Subscribe` looking up the subscribe function in a context. Also
  the socket's write side and `sendGraphWSMessage`.
- **`Notifications`** (`notifier.dfy`): the Notifier as a class that logs its calls.
- **`Registry`** (`registry.dfy`): the `topics` map and `subTopic`, as functions on values, with the registry
  invariant.
- **`Reader`** (`reader.dfy`): `clientLoop`. `Forward` is its specification on a list of read outcomes, and the
  `ClientLoop` method is its loop, proved against `Forward`.
- **`SessionSpec`** (`session_spec.dfy`): the session as functions on an event trace (`StartOf`, `Stream`,
  `Run`). The lemmas state the session's guarantees about these functions.
- **`Handler`** (`handler.dfy`): the imperative form of the source. `SubscriptionHandler.ServeHTTP` creates a
  `Session` object whose `topics` map is updated in place by `SubTopic`. Its `for subRunning` loop and its
  cleanup loop are methods proved against `SessionSpec.Run` and `Registry.CleanupLog`.

## Behaviour worth knowing

- **A dry run with errors ends the session.** `subRunning` is the dry run's "no errors" result
  (`subhandler/subscriptionHandler.go:44`, `:135`), so the loop is not entered and the session goes straight to
  cleanup.
- **A decode error ends the reader.** `clientLoop` returns after forwarding the "error" envelope
  (`subhandler/subscriptionHandler.go:172-177`).
- **A run with errors ends the loop.** `runQuery` returns false when the result has errors
  (`subhandler/subscriptionHandler.go:63`), and that value becomes `subRunning` (`:141`).
- **The first envelope's type.** The code never checks that the first envelope is a "start". Any type other than
  "nil" whose payload converts goes on to the dry run; the model keeps this (`SessionSpec.FirstTypeUnchecked`).

## Model

| member | source | states |
|---|---|---|
| GraphModels.ToGraphQLRequest | subhandler/graphModels.go:24-40 | Id and Type are copied unchanged. A payload marshal error is returned as the error. Otherwise an unmarshal error is returned as the error. Otherwise the result's payload is the decode of the encoded payload. |
| GraphModels.TypeNotValidated | subhandler/graphModels.go:25-28 | Whether a message converts, and to which payload, does not depend on its Type; the Type is carried over as given. |
| GraphModels.DependsOnlyOnEncoding | subhandler/graphModels.go:30-37 | Two messages with the same Id, Type and payload encoding convert to the same result. |
| Helpers.Lookup | subhandler/helpers.go:18 | `ctx.Value`: a value is found iff some layer binds the key; the innermost binding wins and shadows outer ones. |
| Helpers.Subscribe | subhandler/helpers.go:16-25 | With no subscribe function in the context: the error "no subscribe function in context" is returned and nothing is called. With one: it is called exactly once with the topic unchanged and nil is returned. Any other value under the key panics (the unchecked type assertion). |
| Helpers.SessionContext | subhandler/subscriptionHandler.go:80 | The session's context adds the connection id (line 80) and the subscribe function (line 105) to the request context. Looking up the subscribe key finds that session's own function, whatever the request context held. |
| Helpers.SessionContextDeclares | subhandler/subscriptionHandler.go:79-105 | In the context a session builds, every topic a resolver passes to Subscribe reaches that session's subscribe function, once, unchanged and in order, whatever the request context held. |
| Helpers.NoFunctionNoCalls | subhandler/helpers.go:18-24 | Without a subscribe function, any sequence of Subscribe calls invokes nothing and each reports the error. |
| Helpers.Socket.WriteMessage | subhandler/helpers.go:13 | One frame is appended to what was written; the result is the transport's outcome for that write. |
| Helpers.Frame | subhandler/helpers.go:12 | The frame for one envelope is its JSON. When marshalling fails, the error is dropped and the frame is empty, as the nil slice `json.Marshal` returns. |
| Helpers.SendGraphWSMessage | subhandler/helpers.go:10-14 | Exactly one frame is written (the message's JSON, or an empty frame when marshalling failed), and the result is exactly the write's outcome; a marshal error is never reported. |
| Notifications.Notifier.Subscribe | subhandler/notifier.go:5-6 | The call is recorded at the end of the notifier's log. |
| Notifications.Notifier.Unsubscribe | subhandler/notifier.go:8-9 | The call is recorded at the end of the notifier's log. |
| Registry.SubTopic | subhandler/subscriptionHandler.go:93-102 | The topic is recorded with value equal to key, even without a notifier. Existing entries are unchanged and the map only grows. A Subscribe call with the session's callback is made iff the topic was new and there is a notifier, and then exactly one. |
| Registry.DeclareAll | subhandler/subscriptionHandler.go:93-102 | The subTopic calls one graphql.Do makes, one per topic its resolvers declare, in order. No recorded topic is lost, and with no notifier no call is made. |
| Registry.DeclareAllRecords | subhandler/subscriptionHandler.go:93-102 | After `DeclareAll` (subTopic on each declared topic in order), every declared topic is recorded, every earlier entry is unchanged, and no other topic appears. |
| Registry.DeclareAllShift | subhandler/subscriptionHandler.go:93-102 | Declaring topics only appends to the calls already made, whatever they were. |
| Registry.EmptyInv | subhandler/subscriptionHandler.go:89 | A new connection's empty map satisfies the registry invariant. |
| Registry.SubTopicKeepsInv | subhandler/subscriptionHandler.go:93-102 | subTopic keeps the invariant: values equal keys, and the calls are one Subscribe per recorded topic with a notifier, none without. |
| Registry.DeclareAllKeepsInv | subhandler/subscriptionHandler.go:93-102 | Any sequence of declarations, with repeats, keeps the invariant. |
| Registry.SubscribedOnce | subhandler/subscriptionHandler.go:95-99 | Under the invariant, a topic has had exactly one Subscribe call if it is recorded and there is a notifier, and none otherwise. Every call made is a Subscribe of a recorded topic with the session's callback. |
| Registry.Balanced | subhandler/subscriptionHandler.go:93-155 | When the registry's calls are followed by a cleanup log, each recorded topic is subscribed exactly once and unsubscribed exactly once with the same callback, and no other topic is touched. |
| Reader.Step | subhandler/subscriptionHandler.go:160-188 | One iteration of the read loop forwards only a "start" when it goes on reading, and names why it returns when it returns. |
| Reader.Forward | subhandler/subscriptionHandler.go:158-190 | The reader never makes more reads than there are outcomes, and one that is still reading has made them all. |
| Reader.ForwardEnd | subhandler/subscriptionHandler.go:158-190 | A reader that returned made at least one read and forwarded at least one envelope. The last envelope is the one forwarded by its last read, which is the read that ended it. |
| Reader.ForwardStarts | subhandler/subscriptionHandler.go:180-183 | Every forwarded envelope is a "start", except the last one of a reader that returned. |
| Reader.ForwardShape | subhandler/subscriptionHandler.go:158-190 | Shape of the reader's output. Every forwarded envelope is a "start" except the last one of a reader that returned. That last one is the "stop", a "disconnected" for a read error (the read that failed), or an "error" carrying the decode error's text. |
| Reader.StepAgrees | subhandler/subscriptionHandler.go:160-188 | One iteration against the reference predicates: it ends the reader exactly on a read error, an undecodable frame or a "stop", forwards that read's envelope, and otherwise forwards exactly the decoded "start". |
| Reader.ForwardEndsAtFirstEnd | subhandler/subscriptionHandler.go:158-190 | The reader returns at the first read that ends it and only then. |
| Reader.ForwardForwardsStarts | subhandler/subscriptionHandler.go:158-190 | The reader forwards the "start" envelopes of the reads before its end in receipt order, then the end read's envelope. |
| Reader.ForwardIsFilter | subhandler/subscriptionHandler.go:158-190 | The reader reads up to and including the first read that ends it (read error, undecodable frame or "stop"), and reads everything when none does. It forwards the "start" envelopes before that read in receipt order, then that read's envelope. It returns iff such a read exists. |
| Reader.NothingAfterReturn | subhandler/subscriptionHandler.go:158-190 | Once the reader has returned, later frames are never read and nothing more is forwarded. |
| Reader.ClientLoop | subhandler/subscriptionHandler.go:158-190 | The read loop forwards exactly what `Forward` specifies and returns for the same reason after the same number of reads. |
| SessionSpec.EndsStream | subhandler/subscriptionHandler.go:143 | The forwarded envelopes that end the streaming loop are those of Type "stop" or "disconnected". |
| SessionSpec.DataMessage | subhandler/subscriptionHandler.go:57-61 | The envelope runQuery sends is of Type "data", carries the start request's Id, and has the execution's result as its payload. |
| SessionSpec.FirstReceived | subhandler/subscriptionHandler.go:118-121 | The first select fires at the first Timeout or Client event; every event before it is a notification, which the session cannot have subscribed to yet. |
| SessionSpec.StartOf | subhandler/subscriptionHandler.go:113-132 | The first select takes the first Timeout or Client event (`FirstReceived`). There is no message exactly when no such event exists, or it is the Timeout, or its Type is "nil"; the events consumed are then the notifications before it, plus the timer or the message. Otherwise the session got that Client message, whose Type is not "nil". It is Unconvertible exactly when `ToGraphQLRequest` fails on it, and Converted to exactly `ToGraphQLRequest`'s result otherwise. |
| SessionSpec.Run | subhandler/subscriptionHandler.go:113-148 | The whole session up to cleanup: the first select, the conversion, the dry run and then the loop. No query is run exactly when it ends with no start message or an unconvertible one, and it never consumes more events than it was given. |
| SessionSpec.Advance | subhandler/subscriptionHandler.go:139-147 | One iteration of the loop consumes exactly one event, and leaves the loop only as Stopped or RunEnded. |
| SessionSpec.AdvanceAppends | subhandler/subscriptionHandler.go:139-147 | One iteration appends one "data" envelope with the execution's result and runs one query for a notification, and does neither for any other event. |
| SessionSpec.AdvanceKeepsInv | subhandler/subscriptionHandler.go:139-147 | One iteration keeps the registry invariant. |
| SessionSpec.Stream | subhandler/subscriptionHandler.go:137-148 | The loop ends only as Stopped, as RunEnded, or still waiting. It consumes at least one event when there is one. It is still waiting only if it consumed every event. It never undoes a query. |
| SessionSpec.StreamPendingIff | subhandler/subscriptionHandler.go:137-148 | The loop is still waiting exactly when it consumed every event, none of them was a forwarded "stop" or "disconnected", and every run it made had no errors and a successful write. |
| SessionSpec.StreamSentPrefix | subhandler/subscriptionHandler.go:137-148 | The loop only appends to what was sent. |
| SessionSpec.EarlyExitIsSilent | subhandler/subscriptionHandler.go:114-132 | The session ends with no start iff the timer fired first or the first envelope's Type is "nil". It ends with a bad start iff the first envelope does not convert. In both cases no query runs, nothing is sent and the registry stays empty (no Notifier call). |
| SessionSpec.TimeoutFirst | subhandler/subscriptionHandler.go:118-125 | A timeout before any envelope ends the session right there with nothing done. |
| SessionSpec.StreamingIffDryRunClean | subhandler/subscriptionHandler.go:134-138 | The streaming loop is entered iff the first envelope converted and the dry run reported zero errors. A failed dry run ends after exactly one query with nothing sent. |
| SessionSpec.OneDataPerNotify | subhandler/subscriptionHandler.go:140-141 | Over the events the loop consumed, the envelopes sent and the queries run each equal the number of notifications. Every envelope sent is of type "data" and carries the start request's Id. |
| SessionSpec.ContinuesOnlyIfOk | subhandler/subscriptionHandler.go:47-63 | Every run the loop went on from had no errors and its write succeeded. A loop that ended as RunEnded did so on a run whose result had errors or whose write failed. |
| SessionSpec.StopsAtStop | subhandler/subscriptionHandler.go:142-146 | Until the loop stops, none of the envelopes it consumed was a "stop" or "disconnected". When it stops, the last event consumed is such an envelope. |
| SessionSpec.StopEndsLoop | subhandler/subscriptionHandler.go:142-146 | When a "stop" or "disconnected" envelope is among the events, the loop ends: it is never still waiting. |
| SessionSpec.IgnoredEventsChangeNothing | subhandler/subscriptionHandler.go:138-147 | Removing every other envelope (a second "start", the reader's "error") and every timer event from the events changes neither the loop's exit nor what it registers, sends or runs. |
| SessionSpec.RepeatedNotifyRunsAgain | subhandler/subscriptionHandler.go:140-141 | After a clean first run, the same notification delivered again runs the query again: the two "data" envelopes carry the engine's answers to two successive query numbers, which may differ. |
| SessionSpec.StreamKeepsInv | subhandler/subscriptionHandler.go:138-148 | The streaming loop keeps the registry invariant. |
| SessionSpec.StreamTopicsGrow | subhandler/subscriptionHandler.go:93-102 | During the loop the topics map only grows: no topic is removed or rebound before cleanup. |
| SessionSpec.StreamIgnoresType | subhandler/subscriptionHandler.go:137-148 | The loop does not depend on the start request's Type. |
| SessionSpec.FirstTypeUnchecked | subhandler/subscriptionHandler.go:123-135 | Replacing the converted first envelope's Type with any type other than "nil" leaves the whole session unchanged: "start" is never required. |
| SessionSpec.SessionSends | subhandler/subscriptionHandler.go:134-148 | Every envelope a session sends is a "data" envelope with the start request's Id. There is one per notification consumed while streaming, and one query more than envelopes (the dry run). |
| SessionSpec.SessionKeepsInv | subhandler/subscriptionHandler.go:89-148 | Before cleanup the registry invariant holds, and with a nil notifier no Notifier call was made. |
| SessionSpec.ClientOnlyLoop | subhandler/subscriptionHandler.go:142-146 | Fed only forwarded envelopes, the loop sends, runs and registers nothing. It stops iff one of them is a "stop" or "disconnected", and otherwise is still waiting. |
| SessionSpec.ReaderDrivesLoop | subhandler/subscriptionHandler.go:142-190 | Fed what the reader forwards, the loop stops iff the reader returned on a "stop" or a read error. After a decode error it is still waiting, because the "error" envelope is ignored. |
| SessionSpec.ClientOnlySession | subhandler/subscriptionHandler.go:118-148 | A whole session fed only forwarded envelopes: the first select takes the first one. Once streaming, the session stops exactly when a later envelope is a "stop" or "disconnected", and otherwise keeps waiting. Nothing is sent. |
| SessionSpec.ReaderDrivesSession | subhandler/subscriptionHandler.go:111-148 | A whole session fed only the reader's output: the first forwarded envelope is the start, and the loop sees the rest. Once streaming, the session stops exactly when the reader returned on a "stop" or a read error after at least one more envelope, and otherwise keeps waiting. Nothing is sent. |
| SessionSpec.DecodeErrorCannotStop | subhandler/subscriptionHandler.go:172-177 | When the reader returned on a decode error, on any interleaving of its forwarded envelopes with notifications and timer events, the loop never ends Stopped: it ends with RunEnded or keeps waiting. |
| Handler.Session.constructor | subhandler/subscriptionHandler.go:88-90 | A session starts with an empty topics map, the handler's notifier and its own callback. |
| Handler.Session.SubTopic | subhandler/subscriptionHandler.go:93-102 | The topics map and the notifier's log change exactly as `Registry.SubTopic` says. |
| Handler.Session.Execute | subhandler/subscriptionHandler.go:36-42 | The result is the engine's answer to the session's next query number, which advances by one, and every topic its resolvers declared went through SubTopic in order, as `Registry.DeclareAll` says. |
| Handler.Session.DryRunQuery | subhandler/subscriptionHandler.go:35-45 | Runs the query without a root object. Returns true exactly when the result has no errors. Registers what the resolvers declared. |
| Handler.Session.RunQuery | subhandler/subscriptionHandler.go:47-64 | Runs the query with the notification as root object and writes exactly one "data" frame with the request's Id and the result. Returns true exactly when the result has no errors and the write succeeded. |
| Handler.Session.HandleEvent | subhandler/subscriptionHandler.go:139-147 | One select of the loop: the new subRunning, the topics map, the notifier's log and the frames written are those of `SessionSpec.Advance`. |
| Handler.Session.Loop | subhandler/subscriptionHandler.go:137-148 | The `for subRunning` loop's exit, the topics map, the notifier's log and the frames written are those of `SessionSpec.Stream`. |
| Handler.Session.Serve | subhandler/subscriptionHandler.go:113-148 | From the first select to the end of the loop, the exit, the topics map, the notifier's log and the frames written are those of `SessionSpec.Run`. |
| Handler.Session.Cleanup | subhandler/subscriptionHandler.go:150-155 | With a notifier, exactly one Unsubscribe with the session's callback is appended for each topic in the map, in some order. With none, nothing is called. |
| Handler.SubscriptionHandler.constructor | subhandler/subscriptionHandler.go:21-29 | The handler keeps the notifier it is given, which may be nil. |
| Handler.SubscriptionHandler.ServeHTTP | subhandler/subscriptionHandler.go:66-156 | The exit and the frames written are those of `SessionSpec.Run`. The notifier's log is extended by the run's Subscribe calls, then by one Unsubscribe per recorded topic when the loop was left, and nothing after an early exit. |

## Left out

- WebSocket and HTTP I/O are not modelled: the upgrade, the 500 reply, `socket.Close` and `ReadMessage`. Reads
  are a list of outcomes, and writes are the `writeOk` oracle.
- Concurrency is not modelled: goroutines, unbuffered channels, `select`, the mutex and `time.After`. The session
  consumes one interleaved trace. The goroutine leak, where `clientLoop` stays blocked on a send after the handler
  returned, is a scheduling artefact and out of scope. Notifications arriving before the first envelope are
  skipped, since none can be delivered before a Subscribe. Timer events after the start are skipped, since the
  loop no longer listens to that channel.
- `graphql.Do` and resolver execution are not modelled: an external engine, given as an oracle.
- `encoding/json` is not modelled: an external library, given as partial functions. `JNumber` holds integers
  only, because floating point is not modelled.
- That unmarshalling a marshalled payload gives it back is an assumption about `encoding/json`, not something
  this model proves. `GraphModels.ToGraphQLRequest` is stated for any codec, round-tripping or not.
- UUID generation is not modelled: the connection id is a parameter of `SessionContext`.
- `SetCheckOrigin` (a configuration setter), the `startMessageTimeout` value (it becomes the `Timeout` event) and
  the `_examples/timeserver` demo are not modelled.
- Notifier.Notify and the callback's delivery are not modelled: a delivery to the session is a `Notify` event of
  its trace.
- Handler.SubscriptionHandler.ServeHTTP: when the events run out while streaming, the session is reported as
  still waiting (`Pending`) with no cleanup, where the Go code stays blocked in `select`.
- Handler.SubscriptionHandler.ServeHTTP: with a nil notifier there is no call log to state anything about. That
  no call is made is stated on the registry (`SessionSpec.SessionKeepsInv`) and on `Handler.Session.Cleanup`.
- Handler.Session.Cleanup: Go's map iteration order is unspecified, so the order of the Unsubscribe calls is left
  open and only their multiset is stated.
- Reader.ClientLoop: the blocking sends into the channel are not modelled. The method returns the forwarded
  envelopes, and when the outcomes run out it reports `Reading`, where the Go reader stays blocked in
  `ReadMessage`.
- The decode-error path is modelled but not corrected. After a decode error the reader has returned and the
  session ignores the "error" envelope, so the client can no longer stop the session
  (`SessionSpec.DecodeErrorCannotStop`, on any interleaving with notifications). The loop then ends only through
  a run with errors or a failed write, which `SessionSpec.ContinuesOnlyIfOk` characterises. Whether this is
  intended is not clear from the code, so it is not claimed to be a bug.
