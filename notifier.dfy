/**
 * The Notifier interface (subhandler/notifier.go) as the core sees it: an injected object shared by all sessions,
 * observed through the log of Subscribe and Unsubscribe calls made on it. Notify is the publisher's side; its
 * deliveries reach a session as Notify events of the session's trace.
 */
module Notifications {

  /** The identity of a notification callback (a session's onChange closure). */
  type Callback = nat

  datatype Call = Subscribed(topic: string, cb: Callback) | Unsubscribed(topic: string, cb: Callback)

  class Notifier {
    var log: seq<Call>

    constructor ()
      ensures log == []
    {
      log := [];
    }

    method Subscribe(topic: string, cb: Callback)
      modifies this
      ensures log == old(log) + [Subscribed(topic, cb)]
    {
      log := log + [Subscribed(topic, cb)];
    }

    method Unsubscribe(topic: string, cb: Callback)
      modifies this
      ensures log == old(log) + [Unsubscribed(topic, cb)]
    {
      log := log + [Unsubscribed(topic, cb)];
    }
  }
}
