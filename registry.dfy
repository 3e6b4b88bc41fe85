/**
 * The per-connection topic registry of subhandler/subscriptionHandler.go: the `topics` map and the `subTopic`
 * closure that resolvers reach through Subscribe. This module is its specification on values; the Handler
 * module's Session class runs it in place and is proved against these functions.
 */
module Registry {
  import opened Notifications

  /** The registry of one session: its topics map and the Notifier calls the session has made so far. */
  datatype State = State(topics: map<string, string>, calls: seq<Call>)

  /** A new connection's registry: no topic, no call. */
  const Empty: State := State(map[], [])

  /**
   * subTopic(topic): a topic not yet in the map is recorded (with the topic itself as value) and, when there is
   * a notifier, subscribed with the session's callback; a topic already present changes nothing.
   */
  function SubTopic(s: State, hasNotifier: bool, cb: Callback, topic: string): (r: State)
    ensures r.topics.Keys == s.topics.Keys + {topic}
    ensures forall k | k in s.topics :: r.topics[k] == s.topics[k]
    ensures topic !in s.topics ==> r.topics[topic] == topic
    ensures r.calls == s.calls <==> topic in s.topics || !hasNotifier
    ensures r.calls != s.calls ==> r.calls == s.calls + [Subscribed(topic, cb)]
  {
    if topic in s.topics then s
    else State(s.topics[topic := topic], if hasNotifier then s.calls + [Subscribed(topic, cb)] else s.calls)
  }

  /** The topics of ts, each passed to subTopic in order (what one execution's resolvers declare). */
  function DeclareAll(s: State, hasNotifier: bool, cb: Callback, ts: seq<string>): (r: State)
    ensures s.topics.Keys <= r.topics.Keys
    ensures !hasNotifier ==> r.calls == s.calls
    decreases |ts|
  {
    if ts == [] then s else DeclareAll(SubTopic(s, hasNotifier, cb, ts[0]), hasNotifier, cb, ts[1..])
  }

  /** After declaring topics, every declared topic is recorded, earlier entries are unchanged, nothing else is added. */
  lemma {:induction false} DeclareAllRecords(s: State, hasNotifier: bool, cb: Callback, ts: seq<string>)
    ensures var r := DeclareAll(s, hasNotifier, cb, ts);
            (forall k | k in s.topics :: k in r.topics && r.topics[k] == s.topics[k]) &&
            (forall i | 0 <= i < |ts| :: ts[i] in r.topics) &&
            (forall k | k in r.topics :: k in s.topics || k in ts)
    decreases |ts|
  {
    if ts != [] {
      var s' := SubTopic(s, hasNotifier, cb, ts[0]);
      DeclareAllRecords(s', hasNotifier, cb, ts[1..]);
      assert forall i | 1 <= i < |ts| :: ts[i] == ts[1..][i - 1];
      assert forall k | k in ts[1..] :: k in ts;
    }
  }

  /** Declaring topics depends on the calls made before only in that it appends to them. */
  lemma {:induction false} DeclareAllShift(s: State, prefix: seq<Call>, hasNotifier: bool, cb: Callback, ts: seq<string>)
    ensures var r := DeclareAll(s, hasNotifier, cb, ts);
            DeclareAll(State(s.topics, prefix + s.calls), hasNotifier, cb, ts) == State(r.topics, prefix + r.calls)
    decreases |ts|
  {
    if ts != [] {
      var s' := SubTopic(s, hasNotifier, cb, ts[0]);
      assert SubTopic(State(s.topics, prefix + s.calls), hasNotifier, cb, ts[0]) == State(s'.topics, prefix + s'.calls);
      DeclareAllShift(s', prefix, hasNotifier, cb, ts[1..]);
    }
  }

  /** One Subscribe call with cb for each topic of keys. */
  function SubscribeCalls(keys: set<string>, cb: Callback): set<Call>
  {
    set k | k in keys :: Subscribed(k, cb)
  }

  /** One Unsubscribe call with cb for each topic of keys. */
  function UnsubscribeCalls(keys: set<string>, cb: Callback): set<Call>
  {
    set k | k in keys :: Unsubscribed(k, cb)
  }

  /**
   * The registry invariant: every value equals its key, and the calls made are exactly one Subscribe with the
   * session's callback per recorded topic (in some order) when there is a notifier, and none when there is not.
   */
  predicate Inv(s: State, hasNotifier: bool, cb: Callback)
  {
    (forall k | k in s.topics :: s.topics[k] == k) &&
    multiset(s.calls) == if hasNotifier then multiset(SubscribeCalls(s.topics.Keys, cb)) else multiset{}
  }

  lemma EmptyInv(hasNotifier: bool, cb: Callback)
    ensures Inv(Empty, hasNotifier, cb)
  {
    assert SubscribeCalls({}, cb) == {};
  }

  /** subTopic keeps the invariant: a new topic brings exactly its one Subscribe call. */
  lemma SubTopicKeepsInv(s: State, hasNotifier: bool, cb: Callback, topic: string)
    requires Inv(s, hasNotifier, cb)
    ensures Inv(SubTopic(s, hasNotifier, cb, topic), hasNotifier, cb)
  {
    if topic !in s.topics && hasNotifier {
      var r := SubTopic(s, hasNotifier, cb, topic);
      var c := Subscribed(topic, cb);
      assert SubscribeCalls(r.topics.Keys, cb) == SubscribeCalls(s.topics.Keys, cb) + {c};
      assert c !in SubscribeCalls(s.topics.Keys, cb);
      assert multiset(SubscribeCalls(r.topics.Keys, cb)) == multiset(SubscribeCalls(s.topics.Keys, cb)) + multiset{c};
      assert multiset(r.calls) == multiset(s.calls) + multiset{c};
    }
  }

  /** Declaring any sequence of topics, repeated or not, keeps the invariant. */
  lemma {:induction false} DeclareAllKeepsInv(s: State, hasNotifier: bool, cb: Callback, ts: seq<string>)
    requires Inv(s, hasNotifier, cb)
    ensures Inv(DeclareAll(s, hasNotifier, cb, ts), hasNotifier, cb)
    decreases |ts|
  {
    if ts != [] {
      SubTopicKeepsInv(s, hasNotifier, cb, ts[0]);
      DeclareAllKeepsInv(SubTopic(s, hasNotifier, cb, ts[0]), hasNotifier, cb, ts[1..]);
    }
  }

  /**
   * Under the invariant each topic has had exactly one Subscribe call if it is recorded and there is a notifier,
   * and none otherwise; every call is a Subscribe of a recorded topic with the session's callback.
   */
  lemma SubscribedOnce(s: State, hasNotifier: bool, cb: Callback, t: string)
    requires Inv(s, hasNotifier, cb)
    ensures multiset(s.calls)[Subscribed(t, cb)] == if hasNotifier && t in s.topics then 1 else 0
    ensures forall c | c in s.calls :: c == Subscribed(c.topic, cb) && c.topic in s.topics
  {
    forall c | c in s.calls ensures c == Subscribed(c.topic, cb) && c.topic in s.topics {
      assert c in multiset(s.calls);
    }
  }

  /** The cleanup calls: one Unsubscribe with cb per topic of keys, in any order, and nothing else. */
  predicate CleanupLog(c: seq<Call>, keys: set<string>, cb: Callback)
  {
    multiset(c) == multiset(UnsubscribeCalls(keys, cb))
  }

  /**
   * A session log that is the registry's calls followed by its cleanup is balanced: each recorded topic is
   * subscribed exactly once and unsubscribed exactly once with the same callback, every other topic never.
   */
  lemma Balanced(s: State, cb: Callback, cleanup: seq<Call>, t: string)
    requires Inv(s, true, cb) && CleanupLog(cleanup, s.topics.Keys, cb)
    ensures multiset(s.calls + cleanup)[Subscribed(t, cb)] == if t in s.topics then 1 else 0
    ensures multiset(s.calls + cleanup)[Unsubscribed(t, cb)] == if t in s.topics then 1 else 0
  {
    SubscribedOnce(s, true, cb, t);
    assert multiset(s.calls + cleanup) == multiset(s.calls) + multiset(cleanup);
    assert Subscribed(t, cb) !in UnsubscribeCalls(s.topics.Keys, cb);
    assert Unsubscribed(t, cb) in UnsubscribeCalls(s.topics.Keys, cb) <==> t in s.topics;
  }
}
