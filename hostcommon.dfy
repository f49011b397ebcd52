/**
 * What the two host roles share: the continuations they register and the
 * bookkeeping of a ping round.
 */
module HostCommon {
  import opened Wrappers
  import opened Values
  import opened Messages
  import opened Rpc

  /** What the host runs when a registry key is resolved. */
  datatype Continuation =
    | CallReply                           // resolve the `call` promise correlated by the key
    | DeferredConnected(reply: Message)   // send the deferred connected reply (the multi-frame host then flushes and announces)
    | PongAck(sid: string)                // cancel the ping timer and drop the pong key
    | Relay(callerReqId: string)          // the corrected forward: post the sibling's answer back under the caller's reqId

  /** The pings of one round: one per subscriber, whose `reqId` is that subscriber's id. */
  function Pings(id: string, subscribers: seq<string>): (pings: seq<Message>)
    ensures |pings| == |subscribers|
    ensures forall j :: 0 <= j < |subscribers| ==> pings[j] == Ping(id, subscribers[j])
  {
    seq(|subscribers|, j requires 0 <= j < |subscribers| => Ping(id, subscribers[j]))
  }

  /** The pong keys a ping round registers. */
  function PongKeys(subscribers: seq<string>): (keys: set<string>)
    ensures forall s :: s in subscribers ==> PongKey(s) in keys
    ensures forall k :: k in keys ==> exists s :: s in subscribers && k == PongKey(s)
  {
    set s | s in subscribers :: PongKey(s)
  }

  /** The registry a ping round leaves: `m` with the pong key of each of `subscribers` registered, in order. */
  function PongWaits(m: map<string, Entry<Continuation, string>>, subscribers: seq<string>)
    : map<string, Entry<Continuation, string>>
  {
    if subscribers == [] then m
    else
      var sid := subscribers[|subscribers| - 1];
      PongWaits(m, subscribers[..|subscribers| - 1])[PongKey(sid) := Entry(PongAck(sid), None)]
  }

  /** Registering one more subscriber's pong key extends the round by that registration. */
  lemma PongWaitsStep(m: map<string, Entry<Continuation, string>>, subscribers: seq<string>, i: nat)
    requires i < |subscribers|
    ensures PongWaits(m, subscribers[..i + 1])
         == PongWaits(m, subscribers[..i])[PongKey(subscribers[i]) := Entry(PongAck(subscribers[i]), None)]
  {
    assert subscribers[..i + 1][..i] == subscribers[..i];
  }

  /** A ping round adds exactly the pong keys of its subscribers to the registry's keys. */
  lemma {:induction false} PongWaitsKeys(m: map<string, Entry<Continuation, string>>, subscribers: seq<string>)
    ensures PongWaits(m, subscribers).Keys == m.Keys + PongKeys(subscribers)
  {
    if subscribers != [] {
      var init := subscribers[..|subscribers| - 1];
      var sid := subscribers[|subscribers| - 1];
      PongWaitsKeys(m, init);
      assert subscribers == init + [sid];
      assert PongKeys(subscribers) == PongKeys(init) + {PongKey(sid)};
    }
  }

  /**
   * A ping round registers a pong key for every subscriber, waiting on that
   * subscriber's pong, and leaves every other key as it was.
   */
  lemma {:induction false} PongWaitsMembers(m: map<string, Entry<Continuation, string>>, subscribers: seq<string>)
    ensures PongWaits(m, subscribers).Keys == m.Keys + PongKeys(subscribers)
    ensures forall s :: s in subscribers ==> PongWaits(m, subscribers)[PongKey(s)] == Entry(PongAck(s), None)
    ensures forall k :: k in m && k !in PongKeys(subscribers) ==> PongWaits(m, subscribers)[k] == m[k]
  {
    PongWaitsKeys(m, subscribers);
    if subscribers != [] {
      var init := subscribers[..|subscribers| - 1];
      var sid := subscribers[|subscribers| - 1];
      PongWaitsMembers(m, init);
      assert subscribers == init + [sid];
      forall s | s in subscribers
        ensures PongWaits(m, subscribers)[PongKey(s)] == Entry(PongAck(s), None)
      {
        if s != sid {
          assert s in init;
          PongKeyInjective(s, sid);
        }
      }
      forall k | k in m && k !in PongKeys(subscribers)
        ensures PongWaits(m, subscribers)[k] == m[k]
      {
        assert PongKey(sid) in PongKeys(subscribers);
        assert k !in PongKeys(init);
      }
    }
  }
}
