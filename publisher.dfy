/**
 * The older single-frame host of `createIframe`: one frame, one registry, no
 * queue, no event bus and no forwarding.  Every post goes to its frame and is
 * an append to `outbox`.
 */
module Publisher {
  import opened Wrappers
  import opened Values
  import opened Messages
  import opened Rpc
  import opened Promises
  import opened HostCommon

  /** `_parseGlobals(available)`, where an absent capability map counts as empty. */
  function ParseGlobalsOrEmpty(available: Option<Available>): (globals: map<string, Value>)
    ensures available.None? ==> globals == map[]
    ensures available.Some? ==> globals == ParseGlobals(available.value)
  {
    ParseGlobals(available.GetOr(map[]))
  }

  class FrameHost {
    /** The session id every envelope must carry. */
    const id: string
    /** The frame's uid, the target of every post. */
    const frameId: string
    /** The frame's origin, the target origin of every post except responses. */
    const origin: string
    const foreign: Foreign
    const rpc: Registry<Continuation, string>

    /** The capability map; absent until `addAvailable` when none was given. */
    var available: Option<Available>
    var globals: map<string, Value>
    var hasIframeLoaded: bool
    var subscribers: seq<string>
    var outbox: seq<Post>
    var settled: seq<Settlement>

    /** How this host's own entries sit in its registry. */
    ghost predicate Valid()
      reads this, rpc
    {
      && rpc.Valid()
      && globals == ParseGlobalsOrEmpty(available)
      && forall k :: k in rpc.methods ==>
        match rpc.methods[k].onHandle
        case CallReply => rpc.methods[k].onDeregister.Some?
        case DeferredConnected(reply) =>
          && k == IframeLoaded && rpc.methods[k].onDeregister.None?
          && reply.Connected? && reply.id == id && reply.origin.None?
        case PongAck(sid) => k == PongKey(sid) && rpc.methods[k].onDeregister.None?
        case Relay(_) => false   // this host never forwards a call
    }

    /** Everything this host routes on is as it was. */
    twostate predicate Kept()
      reads this
    {
      available == old(available) && globals == old(globals) && hasIframeLoaded == old(hasIframeLoaded)
      && subscribers == old(subscribers)
    }

    /** `createIframe({id, src, available, ...})`, with the frame set up and not yet loaded. */
    constructor (id: string, frameId: string, origin: string, available: Option<Available>, foreign: Foreign)
      ensures Valid()
      ensures this.id == id && this.frameId == frameId && this.origin == origin && this.foreign == foreign
      ensures this.available == available && globals == ParseGlobalsOrEmpty(available)
      ensures !hasIframeLoaded && subscribers == [] && outbox == [] && settled == []
      ensures rpc.methods == map[] && fresh(rpc)
    {
      this.id := id;
      this.frameId := frameId;
      this.origin := origin;
      this.foreign := foreign;
      rpc := new Registry();
      this.available := available;
      globals := ParseGlobalsOrEmpty(available);
      hasIframeLoaded := false;
      subscribers, outbox, settled := [], [], [];
    }

    /** `iframe.contentWindow.postMessage(msg, targetOrigin)`. */
    method Send(msg: Message, targetOrigin: string)
      modifies this
      ensures Kept() && settled == old(settled)
      ensures outbox == old(outbox) + [Post(ToFrame(frameId), Some(targetOrigin), msg)]
    {
      outbox := outbox + [Post(ToFrame(frameId), Some(targetOrigin), msg)];
    }

    /**
     * `rpc.handle({key, payload})` as this host runs it: the entry is taken
     * out first, then its continuation runs.  An unknown key changes nothing
     * and is reported as not found; every continuation of this role returns
     * `undefined` without throwing, which is what a known key reports.
     */
    method Resolve(key: string, payload: Value) returns (report: Response)
      requires Valid()
      modifies this, rpc
      ensures Valid() && Kept()
      ensures key !in old(rpc.methods) ==> unchanged(this, rpc)
      ensures key !in old(rpc.methods) ==> report == Failed(NotFound(key))
      ensures key in old(rpc.methods) ==> report == Resolved(Undefined, key)
      ensures key in old(rpc.methods) ==> rpc.methods == old(rpc.methods) - {key} && key !in rpc.timers
      ensures key in old(rpc.methods) && old(rpc.methods)[key].onHandle.CallReply? ==>
        settled == old(settled) + [Fulfilled(key, payload)] && outbox == old(outbox)
      ensures key in old(rpc.methods) && old(rpc.methods)[key].onHandle.PongAck? ==>
        settled == old(settled) && outbox == old(outbox)
      ensures key in old(rpc.methods) && old(rpc.methods)[key].onHandle.DeferredConnected? ==>
        && settled == old(settled)
        && outbox == old(outbox) + [Post(ToFrame(frameId), Some(origin), old(rpc.methods)[key].onHandle.reply)]
    {
      var taken;
      taken, report := rpc.Handle(key, Returned(Undefined));
      if taken.Some? {
        Continue(key, taken.value.onHandle, payload);
      }
    }

    /** Runs the continuation of the entry just taken out under `key`. */
    method Continue(key: string, onHandle: Continuation, payload: Value)
      requires Valid() && key !in rpc.methods && key !in rpc.timers
      requires onHandle.PongAck? ==> key == PongKey(onHandle.sid)
      requires !onHandle.Relay?
      modifies this, rpc
      ensures Valid() && Kept() && rpc.methods == old(rpc.methods) && key !in rpc.timers
      ensures onHandle.CallReply? ==> settled == old(settled) + [Fulfilled(key, payload)] && outbox == old(outbox)
      ensures onHandle.PongAck? ==> settled == old(settled) && outbox == old(outbox)
      ensures onHandle.DeferredConnected? ==>
        settled == old(settled) && outbox == old(outbox) + [Post(ToFrame(frameId), Some(origin), onHandle.reply)]
    {
      match onHandle
      case CallReply =>
        settled := settled + [Fulfilled(key, payload)];
      case DeferredConnected(reply) =>
        Send(reply, origin);
      case PongAck(sid) =>
        var existed, invoke := rpc.Deregister(PongKey(sid));
      case Relay(_) =>
    }

    /**
     * The frame's load listener.  It stays attached, so every load sets the
     * flag and resolves the deferred connected reply if one is pending.
     */
    method Load()
      requires Valid()
      modifies this, rpc
      ensures Valid() && hasIframeLoaded
      ensures available == old(available) && subscribers == old(subscribers)
      ensures rpc.methods == old(rpc.methods) - {IframeLoaded}
      ensures IframeLoaded !in old(rpc.methods) ==> outbox == old(outbox) && settled == old(settled)
      ensures IframeLoaded in old(rpc.methods) && old(rpc.methods)[IframeLoaded].onHandle.DeferredConnected? ==>
        && outbox == old(outbox) + [Post(ToFrame(frameId), Some(origin), old(rpc.methods)[IframeLoaded].onHandle.reply)]
        && settled == old(settled)
      ensures IframeLoaded in old(rpc.methods) && old(rpc.methods)[IframeLoaded].onHandle.CallReply? ==>
        outbox == old(outbox) && settled == old(settled) + [Fulfilled(IframeLoaded, Str(""))]
    {
      hasIframeLoaded := true;
      var report := Resolve(IframeLoaded, Str(""));
    }

    /**
     * The expiry timer of a registered key fires: `rpc.deregister(key)`; for a
     * call this rejects its promise with "No reponse <method>".  The extra
     * one-second timer of a ping round ends in the same `deregister` of its
     * pong key.
     */
    method TimerFires(key: string)
      requires Valid() && key in rpc.timers
      modifies this, rpc
      ensures Valid() && Kept() && outbox == old(outbox)
      ensures rpc.methods == old(rpc.methods) - {key}
      ensures old(rpc.methods)[key].onHandle.CallReply? ==>
        settled == old(settled) + [Rejected(key, old(rpc.methods)[key].onDeregister.value)]
      ensures !old(rpc.methods)[key].onHandle.CallReply? ==> settled == old(settled)
    {
      var existed, invoke := rpc.Expire(key);
      if invoke.Some? {
        settled := settled + [Rejected(key, invoke.value)];
      }
    }

    /**
     * `_onEvent`: ignores a message without data or for another session;
     * admits connects from anyone; drops every other kind from a sender that
     * is not a subscriber; otherwise routes on the kind.
     */
    method OnEvent(data: Option<Message>)
      requires Valid()
      modifies this, rpc
      ensures Valid()
      ensures data.None? || data.value.id != id ==> unchanged(this, rpc)
      ensures data.Some? && data.value.id == id && !data.value.Connect?
        && (SubscriberIdOf(data.value).None? || SubscriberIdOf(data.value).value !in old(subscribers))
        ==> unchanged(this, rpc)
      ensures data.Some? && data.value.id == id && data.value.Connect? ==>
        subscribers == old(subscribers) + [data.value.joining] && settled == old(settled)
      ensures data.Some? && data.value.id == id && data.value.Connect? && old(hasIframeLoaded) ==>
        unchanged(rpc) && outbox == old(outbox) + [Post(ToFrame(frameId), Some(origin), Connected(id, data.value.reqId, None, Record(globals), None))]
      ensures data.Some? && data.value.id == id && data.value.Connect? && !old(hasIframeLoaded) ==>
        && rpc.methods == old(rpc.methods)[IframeLoaded := Entry(DeferredConnected(Connected(id, data.value.reqId, None, Record(globals), None)), None)]
        && outbox == old(outbox)
      ensures data.Some? && data.value.id == id && !data.value.Connect? ==> subscribers == old(subscribers)
      ensures data.Some? && data.value.id == id && !data.value.Connect?
        && SubscriberIdOf(data.value).Some? && SubscriberIdOf(data.value).value in old(subscribers)
        ==> Routed(data.value)
    {
      if data.None? || data.value.id != id {
        return;
      }
      var m := data.value;
      if m.Connect? {
        OnConnect(m.reqId, m.joining);
        return;
      }
      var sid := SubscriberIdOf(m);
      if sid.Some? && sid.value in subscribers {
        Route(m);
      }
    }

    /**
     * What `_onEvent` does with a subscriber's envelope other than a connect.
     * A pong resolves its pong key; a call is answered as `OnCall` answers
     * it; a response resolves its `reqId`, so a pending call settles with the
     * payload and a deferred reply is posted to the frame; an emit is
     * re-posted to the frame with all its fields and not dispatched; every
     * other kind changes nothing.
     */
    twostate predicate Routed(m: Message)
      reads this, rpc
    {
      && Kept()
      && (m.Pong? ==> rpc.methods == old(rpc.methods) - {PongKey(m.peerId)})
      && (m.CallFn? ==>
            && unchanged(rpc) && settled == old(settled)
            && (available.Some? && Callable(available.value, m.methodName).Some?
                && !foreign.fails(Callable(available.value, m.methodName).value, m.payload) ==>
                  outbox == old(outbox) + [Post(ToFrame(frameId), Some("*"),
                                                Response(id, m.reqId, foreign.result(Callable(available.value, m.methodName).value, m.payload), None))])
            && (available.None? || Callable(available.value, m.methodName).None?
                || foreign.fails(Callable(available.value, m.methodName).value, m.payload) ==>
                  outbox == old(outbox)))
      && (m.Response? ==> rpc.methods == old(rpc.methods) - {m.reqId})
      && (m.Response? && m.reqId !in old(rpc.methods) ==> unchanged(this, rpc))
      && (m.Response? && m.reqId in old(rpc.methods) && old(rpc.methods)[m.reqId].onHandle.CallReply? ==>
            settled == old(settled) + [Fulfilled(m.reqId, m.payload)] && outbox == old(outbox))
      && (m.Response? && m.reqId in old(rpc.methods) && old(rpc.methods)[m.reqId].onHandle.PongAck? ==>
            settled == old(settled) && outbox == old(outbox))
      && (m.Response? && m.reqId in old(rpc.methods) && old(rpc.methods)[m.reqId].onHandle.DeferredConnected? ==>
            settled == old(settled) && outbox == old(outbox) + [Post(ToFrame(frameId), Some(origin), old(rpc.methods)[m.reqId].onHandle.reply)])
      && (m.Emit? ==>
            unchanged(rpc) && settled == old(settled) && outbox == old(outbox) + [Post(ToFrame(frameId), Some(origin), m)])
      && (m.Ping? || m.UpdateGlobals? || m.Connected? || m.EmitPublisher? ==> unchanged(this, rpc))
    }

    /** `_onEvent` for an envelope that passed the session and subscriber gates: routes on the kind. */
    method Route(m: Message)
      requires Valid() && m.id == id && !m.Connect?
      modifies this, rpc
      ensures Valid() && Routed(m)
    {
      if m.Pong? || m.Response? {
        RouteResolve(m);
      } else {
        match m
        case CallFn(_, reqId, methodName, payload, _) =>
          OnCall(reqId, methodName, payload);
        case Emit(_, reqId, event, subscriberId, payload) =>
          Send(Message.Emit(id, reqId, event, subscriberId, payload), origin);
        case _ =>
      }
    }

    /** A subscriber's pong or response: `rpc.handle` of the pong key or of the `reqId`. */
    method RouteResolve(m: Message)
      requires Valid() && (m.Pong? || m.Response?)
      modifies this, rpc
      ensures Valid() && Routed(m)
    {
      var report := Resolve(if m.Pong? then PongKey(m.peerId) else m.reqId, if m.Pong? then Str("") else m.payload);
    }

    /**
     * The connect branch: admits `joining`, then sends the connected reply
     * (echoing `reqId`, with the globals of this moment and no origin) at
     * once if the frame has loaded, or defers it under the fixed key.
     */
    method OnConnect(reqId: string, joining: string)
      requires Valid()
      modifies this, rpc
      ensures Valid() && settled == old(settled)
      ensures subscribers == old(subscribers) + [joining]
      ensures available == old(available) && globals == old(globals) && hasIframeLoaded == old(hasIframeLoaded)
      ensures hasIframeLoaded ==>
        unchanged(rpc) && outbox == old(outbox) + [Post(ToFrame(frameId), Some(origin), Connected(id, reqId, None, Record(globals), None))]
      ensures !hasIframeLoaded ==>
        && rpc.methods == old(rpc.methods)[IframeLoaded := Entry(DeferredConnected(Connected(id, reqId, None, Record(globals), None)), None)]
        && IframeLoaded in rpc.timers && outbox == old(outbox)
    {
      subscribers := subscribers + [joining];
      var reply := Connected(id, reqId, None, Record(globals), None);
      if hasIframeLoaded {
        Send(reply, origin);
      } else {
        rpc.Register(IframeLoaded, Entry(DeferredConnected(reply), None));
      }
    }

    /**
     * A call from a subscriber: an exposed function answers with a response
     * echoing `reqId`, posted with target origin '*' (nothing when it throws);
     * any other name, or a host without a capability map, gets no answer.
     */
    method OnCall(reqId: string, methodName: string, payload: Value)
      requires Valid()
      modifies this
      ensures Valid() && Kept() && settled == old(settled)
      ensures (available.Some? && Callable(available.value, methodName).Some?
               && !foreign.fails(Callable(available.value, methodName).value, payload)) ==>
        outbox == old(outbox) + [Post(ToFrame(frameId), Some("*"),
                                      Response(id, reqId, foreign.result(Callable(available.value, methodName).value, payload), None))]
      ensures (available.None? || Callable(available.value, methodName).None?
               || foreign.fails(Callable(available.value, methodName).value, payload)) ==>
        outbox == old(outbox)
    {
      if available.None? {
        return;
      }
      var f := Callable(available.value, methodName);
      if f.Some? && !foreign.fails(f.value, payload) {
        Send(Response(id, reqId, foreign.result(f.value, payload), None), "*");
      }
    }

    /**
     * One tick of the ping interval: nothing without subscribers; otherwise,
     * per subscriber in order, registers its pong key and posts the frame a
     * ping whose `reqId` is that subscriber's id.
     */
    method PingRound()
      requires Valid()
      modifies this, rpc
      ensures Valid() && Kept() && settled == old(settled)
      ensures rpc.methods == PongWaits(old(rpc.methods), subscribers)
      ensures outbox == old(outbox) + FrameSends(Pings(id, subscribers))
    {
      var pings := Pings(id, subscribers);
      var posts := FrameSends(pings);
      var i := 0;
      while i < |subscribers|
        invariant 0 <= i <= |subscribers|
        invariant Valid() && Kept() && settled == old(settled)
        invariant rpc.methods == PongWaits(old(rpc.methods), subscribers[..i])
        invariant outbox == old(outbox) + posts[..i]
      {
        PongWaitsStep(old(rpc.methods), subscribers, i);
        assert posts[..i + 1] == posts[..i] + [Post(ToFrame(frameId), Some(origin), Ping(id, subscribers[i]))];
        PingOne(subscribers[i]);
        i := i + 1;
      }
      assert subscribers[..i] == subscribers;
      assert posts[..i] == posts;
    }

    /** One subscriber's share of a ping round: its pong key is registered, then its ping is posted. */
    method PingOne(sid: string)
      requires Valid()
      modifies this, rpc
      ensures Valid() && Kept() && settled == old(settled)
      ensures rpc.methods == old(rpc.methods)[PongKey(sid) := Entry(PongAck(sid), None)]
      ensures outbox == old(outbox) + [Post(ToFrame(frameId), Some(origin), Ping(id, sid))]
    {
      rpc.Register(PongKey(sid), Entry(PongAck(sid), None));
      Send(Ping(id, sid), origin);
    }

    /** Posting each of `msgs` in turn to the frame with its origin. */
    function FrameSends(msgs: seq<Message>): (posts: seq<Post>)
      ensures |posts| == |msgs|
      ensures forall j :: 0 <= j < |msgs| ==> posts[j] == Post(ToFrame(frameId), Some(origin), msgs[j])
    {
      seq(|msgs|, j requires 0 <= j < |msgs| => Post(ToFrame(frameId), Some(origin), msgs[j]))
    }

    /**
     * `call(method, payload)` with `reqId` the id `getId` draws: registers the
     * reply continuation (rejecting with "No reponse <method>" on expiry) and
     * posts the call at once; there is no queue.
     */
    method Call(methodName: string, payload: Value, reqId: string)
      requires Valid()
      modifies this, rpc
      ensures Valid() && Kept() && settled == old(settled)
      ensures rpc.methods == old(rpc.methods)[reqId := Entry(CallReply, Some(NoResponse(methodName)))]
      ensures reqId in rpc.timers
      ensures outbox == old(outbox) + [Post(ToFrame(frameId), Some(origin), CallFn(id, reqId, methodName, payload, None))]
    {
      rpc.Register(reqId, Entry(CallReply, Some(NoResponse(methodName))));
      Send(CallFn(id, reqId, methodName, payload, None), origin);
    }

    /** `addAvailable(added)`: right-biased merge (onto nothing if absent), globals recomputed, update-globals posted. */
    method AddAvailable(added: Available)
      requires Valid()
      modifies this
      ensures Valid() && settled == old(settled)
      ensures available == Some(Merge(old(available).GetOr(map[]), added)) && globals == ParseGlobals(available.value)
      ensures outbox == old(outbox) + [Post(ToFrame(frameId), Some(origin), UpdateGlobals(id, Record(globals)))]
      ensures hasIframeLoaded == old(hasIframeLoaded) && subscribers == old(subscribers)
    {
      available := Some(Merge(available.GetOr(map[]), added));
      globals := ParseGlobalsOrEmpty(available);
      Send(UpdateGlobals(id, Record(globals)), origin);
    }
  }
}
