/**
 * The peer that runs inside a frame: it connects to its host, holds back
 * calls and emits until the host has answered, answers the host's pings and
 * calls, and dispatches the host's emits to its own listeners.  Every post
 * goes to the embedding window and is an append to `outbox`.
 */
module Subscriber {
  import opened Wrappers
  import opened Values
  import opened Messages
  import opened Rpc
  import opened Events
  import opened QueueHandler
  import opened Promises

  /** The event the peer dispatches once connected.  Its real value lives in a constants module outside this model. */
  const OnConnectedEvent := "framecomms/onConnected"

  /** What the peer runs when a registry key is resolved. */
  datatype Continuation =
    | ConnectDone   // the handshake continuation of `_connect`
    | CallReply     // resolve the `call` promise correlated by the key

  /** Posting each of `msgs` in turn to the embedding window with target origin `o`. */
  function Sends(o: Option<string>, msgs: seq<Message>): (posts: seq<Post>)
    ensures |posts| == |msgs|
    ensures forall j :: 0 <= j < |msgs| ==> posts[j] == Post(ToParent, o, msgs[j])
  {
    seq(|msgs|, j requires 0 <= j < |msgs| => Post(ToParent, o, msgs[j]))
  }

  class Peer {
    /** The session id every envelope must carry. */
    const id: string
    /** This peer's id, drawn once by `getId`. */
    const subscriberId: string
    const foreign: Foreign
    const rpc: Registry<Continuation, string>
    const events: EventBus<HandlerId, Value>
    const callQueue: Queue<Message>

    var available: Available
    var isConnected: bool
    /** The target origin of posts; `None` once a connected reply without an origin has been seen. */
    var origin: Option<string>
    /** `window.framecommsProps`: the last globals snapshot received. */
    var props: Value
    var outbox: seq<Post>
    var settled: seq<Settlement>

    /**
     * The handshake invariants apart from the queue: nothing but the connect
     * request leaves the peer before it is connected, and the connect
     * continuation is registered at most once and only while disconnected.
     */
    ghost predicate Core()
      reads this, rpc, events
    {
      && rpc.Valid() && events.Valid()
      && (!isConnected ==> forall j :: 0 <= j < |outbox| ==> outbox[j].msg.Connect?)
      && (forall k :: k in rpc.methods && rpc.methods[k].onHandle.ConnectDone? ==>
            !isConnected && rpc.methods[k].onDeregister == Some(CouldNotConnect))
      && (forall k1, k2 :: (k1 in rpc.methods && k2 in rpc.methods && rpc.methods[k1].onHandle.ConnectDone?
                            && rpc.methods[k2].onHandle.ConnectDone?) ==> k1 == k2)
    }

    /** The handshake invariants; besides `Core`, once connected the queue stays empty. */
    ghost predicate Valid()
      reads this, rpc, events, callQueue
    {
      Core() && (isConnected ==> callQueue.items == [])
    }

    /** Everything the peer routes on is as it was. */
    twostate predicate Kept()
      reads this
    {
      available == old(available) && isConnected == old(isConnected) && origin == old(origin) && props == old(props)
    }

    /**
     * `connectTo({id, available})`, which runs `_connect` at once: the
     * handshake continuation is registered under `connectReqId` (rejecting
     * with "Could not connect" on expiry) and the connect request, whose
     * payload is the peer's own id, is posted to the window with origin '*'.
     */
    constructor (id: string, subscriberId: string, available: Available, foreign: Foreign, connectReqId: string)
      ensures Valid()
      ensures this.id == id && this.subscriberId == subscriberId && this.available == available && this.foreign == foreign
      ensures !isConnected && origin == Some("*") && props == Undefined && settled == []
      ensures rpc.methods == map[connectReqId := Entry(ConnectDone, Some(CouldNotConnect))] && connectReqId in rpc.timers
      ensures outbox == [Post(ToParent, Some("*"), Connect(id, connectReqId, subscriberId, Some(subscriberId)))]
      ensures events.events == map[] && events.log == [] && callQueue.items == []
      ensures fresh(rpc) && fresh(events) && fresh(callQueue)
    {
      this.id := id;
      this.subscriberId := subscriberId;
      this.foreign := foreign;
      rpc := new Registry();
      events := new EventBus();
      callQueue := new Queue();
      this.available := available;
      isConnected := false;
      origin := Some("*");
      props := Undefined;
      outbox, settled := [], [];
      new;
      rpc.Register(connectReqId, Entry(ConnectDone, Some(CouldNotConnect)));
      outbox := [Post(ToParent, origin, Connect(id, connectReqId, subscriberId, Some(subscriberId)))];
    }

    /** `callQueue.flush(_post)`: posts every queued envelope with the current origin, in queue order, then empties the queue. */
    method FlushQueue()
      requires Core() && isConnected
      modifies this, callQueue
      ensures Valid() && Kept() && settled == old(settled)
      ensures outbox == old(outbox) + Sends(origin, old(callQueue.items)) && callQueue.items == []
    {
      var handed, threw := callQueue.Flush(_ => false);
      var posts := Sends(origin, handed);
      var i := 0;
      while i < |handed|
        invariant 0 <= i <= |handed|
        invariant Core() && Kept() && settled == old(settled) && callQueue.items == []
        invariant outbox == old(outbox) + posts[..i]
      {
        outbox := outbox + [Post(ToParent, origin, handed[i])];
        assert posts[..i + 1] == posts[..i] + [posts[i]];
        i := i + 1;
      }
      assert posts[..i] == posts;
    }

    /** `events.handle(event, payload)`: runs the bus dispatch with the listeners' own failure behaviour. */
    method Dispatch(event: string, payload: Value)
      requires events.Valid()
      modifies events
      ensures events.Valid()
      ensures Dispatched(events, event, payload, foreign.listenerFails)
    {
      events.DispatchEvent(event, payload, foreign.listenerFails);
    }

    /**
     * The connect continuation, in order: marks the peer connected, stores
     * the props snapshot, dispatches the connected event, flushes the queue,
     * and resolves the connect promise with `true`.
     */
    method CompleteHandshake(key: string, payload: Value)
      requires Valid() && !isConnected
      requires forall k :: k in rpc.methods ==> !rpc.methods[k].onHandle.ConnectDone?
      modifies this, events, callQueue
      ensures Valid()
      ensures isConnected && props == payload && available == old(available) && origin == old(origin)
      ensures Dispatched(events, OnConnectedEvent, payload, foreign.listenerFails)
      ensures outbox == old(outbox) + Sends(origin, old(callQueue.items)) && callQueue.items == []
      ensures settled == old(settled) + [Fulfilled(key, Bool(true))]
      ensures unchanged(rpc)
    {
      isConnected := true;
      props := payload;
      Dispatch(OnConnectedEvent, payload);
      FlushQueue();
      settled := settled + [Fulfilled(key, Bool(true))];
    }

    /**
     * `rpc.handle({key, payload})` as the peer runs it: the entry is taken out
     * first, then its continuation runs.  An unknown key changes nothing and
     * is reported as not found; every continuation of the peer returns
     * `undefined` without throwing, which is what a known key reports.
     */
    method Resolve(key: string, payload: Value) returns (report: Response)
      requires Valid()
      modifies this, rpc, events, callQueue
      ensures Valid() && available == old(available) && origin == old(origin)
      ensures key !in old(rpc.methods) ==> unchanged(this, rpc, events, callQueue)
      ensures key !in old(rpc.methods) ==> report == Failed(NotFound(key))
      ensures key in old(rpc.methods) ==> report == Resolved(Undefined, key)
      ensures key in old(rpc.methods) ==> rpc.methods == old(rpc.methods) - {key} && key !in rpc.timers
      ensures key in old(rpc.methods) && old(rpc.methods)[key].onHandle.CallReply? ==>
        && settled == old(settled) + [Fulfilled(key, payload)]
        && Kept() && outbox == old(outbox) && unchanged(events, callQueue)
      ensures key in old(rpc.methods) && old(rpc.methods)[key].onHandle.ConnectDone? ==>
        && !old(isConnected) && isConnected && props == payload
        && Dispatched(events, OnConnectedEvent, payload, foreign.listenerFails)
        && outbox == old(outbox) + Sends(origin, old(callQueue.items)) && callQueue.items == []
        && settled == old(settled) + [Fulfilled(key, Bool(true))]
    {
      var taken;
      taken, report := rpc.Handle(key, Returned(Undefined));
      if taken.None? {
        return;
      }
      match taken.value.onHandle
      case CallReply =>
        settled := settled + [Fulfilled(key, payload)];
      case ConnectDone =>
        CompleteHandshake(key, payload);
    }

    /**
     * The expiry timer of a registered key fires: `rpc.deregister(key)`,
     * whose `onDeregister` rejects the connect ("Could not connect") or the
     * call ("No reponse <method>").
     */
    method TimerFires(key: string)
      requires Valid() && key in rpc.timers
      modifies this, rpc
      ensures Valid() && Kept() && outbox == old(outbox)
      ensures rpc.methods == old(rpc.methods) - {key}
      ensures old(rpc.methods)[key].onHandle.ConnectDone? ==> settled == old(settled) + [Rejected(key, CouldNotConnect)]
      ensures old(rpc.methods)[key].onDeregister.Some? ==>
        settled == old(settled) + [Rejected(key, old(rpc.methods)[key].onDeregister.value)]
      ensures old(rpc.methods)[key].onDeregister.None? ==> settled == old(settled)
    {
      var existed, invoke := rpc.Expire(key);
      if invoke.Some? {
        settled := settled + [Rejected(key, invoke.value)];
      }
    }

    /**
     * `_onEvent`: ignores a message without data or for another session;
     * takes a connected reply at any time (recording its origin and
     * resolving its `reqId`); ignores everything else while disconnected;
     * otherwise routes on the kind.
     */
    method OnEvent(data: Option<Message>)
      requires Valid()
      modifies this, rpc, events, callQueue
      ensures Valid() && available == old(available)
      ensures data.None? || data.value.id != id ==> unchanged(this, rpc, events, callQueue)
      ensures data.Some? && data.value.id == id && data.value.Connected? ==>
        origin == data.value.origin && rpc.methods == old(rpc.methods) - {data.value.reqId}
      ensures data.Some? && data.value.id == id && data.value.Connected? && data.value.reqId in old(rpc.methods)
        && old(rpc.methods)[data.value.reqId].onHandle.ConnectDone?
        ==> (&& isConnected && props == data.value.payload
             && Dispatched(events, OnConnectedEvent, data.value.payload, foreign.listenerFails)
             && outbox == old(outbox) + Sends(data.value.origin, old(callQueue.items)) && callQueue.items == []
             && settled == old(settled) + [Fulfilled(data.value.reqId, Bool(true))])
      ensures data.Some? && data.value.id == id && data.value.Connected? && data.value.reqId in old(rpc.methods)
        && old(rpc.methods)[data.value.reqId].onHandle.CallReply?
        ==> (&& isConnected == old(isConnected) && props == old(props) && unchanged(events, callQueue)
             && outbox == old(outbox) && settled == old(settled) + [Fulfilled(data.value.reqId, data.value.payload)])
      ensures data.Some? && data.value.id == id && data.value.Connected? && data.value.reqId !in old(rpc.methods) ==>
        && isConnected == old(isConnected) && props == old(props) && unchanged(rpc, events, callQueue)
        && outbox == old(outbox) && settled == old(settled)
      ensures data.Some? && data.value.id == id && !data.value.Connected? && !old(isConnected) ==>
        unchanged(this, rpc, events, callQueue)
      ensures data.Some? && data.value.id == id && !data.value.Connected? && old(isConnected) ==> Routed(data.value)
    {
      if data.None? || data.value.id != id {
        return;
      }
      var m := data.value;
      if m.Connected? {
        origin := m.origin;
        var report := Resolve(m.reqId, m.payload);
        return;
      }
      if isConnected {
        Route(m);
      }
    }

    /**
     * What `_onEvent` does, once connected, with an envelope of this session
     * other than a connected reply.  A ping for this peer gets a pong and any
     * other ping nothing; a call is answered as `OnCall` answers it; a
     * response resolves its `reqId`, which once connected can only be a
     * call's, so it fulfils that call with the payload; update-globals
     * replaces the props; an emit of either shape is dispatched; a connect
     * or a pong changes nothing.
     */
    twostate predicate Routed(m: Message)
      reads this, rpc, events, callQueue
    {
      && available == old(available) && origin == old(origin)
      && (m.Ping? ==>
            && unchanged(rpc, events, callQueue) && Kept() && settled == old(settled)
            && outbox == old(outbox) + (if m.reqId == subscriberId then [Post(ToParent, origin, Pong(id, subscriberId, subscriberId))] else []))
      && (m.CallFn? ==>
            && unchanged(rpc, events, callQueue) && Kept() && settled == old(settled)
            && (Callable(available, m.methodName).Some? && !foreign.fails(Callable(available, m.methodName).value, m.payload) ==>
                  outbox == old(outbox) + [Post(ToParent, origin, Response(id, m.reqId,
                                            foreign.result(Callable(available, m.methodName).value, m.payload), Some(subscriberId)))])
            && (Callable(available, m.methodName).None? || foreign.fails(Callable(available, m.methodName).value, m.payload) ==>
                  outbox == old(outbox)))
      && (m.Response? ==> rpc.methods == old(rpc.methods) - {m.reqId})
      && (m.Response? && m.reqId in old(rpc.methods) ==>
            settled == old(settled) + [Fulfilled(m.reqId, m.payload)] && Kept() && outbox == old(outbox) && unchanged(events, callQueue))
      && (m.Response? && m.reqId !in old(rpc.methods) ==> unchanged(this, rpc, events, callQueue))
      && (m.UpdateGlobals? ==>
            && props == m.payload && isConnected
            && unchanged(rpc, events, callQueue) && outbox == old(outbox) && settled == old(settled))
      && (m.Emit? || m.EmitPublisher? ==>
            && Dispatched(events, m.event, m.payload, foreign.listenerFails)
            && Kept() && unchanged(rpc, callQueue) && outbox == old(outbox) && settled == old(settled))
      && (m.Connect? || m.Pong? ==> unchanged(this, rpc, events, callQueue))
    }

    /** `_onEvent` once connected, for an envelope of this session other than a connected reply: routes on the kind. */
    method Route(m: Message)
      requires Valid() && isConnected && m.id == id && !m.Connected?
      modifies this, rpc, events, callQueue
      ensures Valid() && Routed(m)
    {
      if m.Response? || m.Emit? || m.EmitPublisher? {
        RouteInbound(m);
      } else {
        match m
        case Ping(_, reqId) =>
          if reqId == subscriberId {
            outbox := outbox + [Post(ToParent, origin, Pong(id, reqId, subscriberId))];
          }
        case CallFn(_, reqId, methodName, payload, _) =>
          OnCall(reqId, methodName, payload);
        case UpdateGlobals(_, payload) =>
          props := payload;
        case _ =>
      }
    }

    /** The routed kinds that reach the registry or the bus: a response settles, an emit is dispatched. */
    method RouteInbound(m: Message)
      requires Valid() && isConnected && m.id == id
      requires m.Response? || m.Emit? || m.EmitPublisher?
      modifies this, rpc, events, callQueue
      ensures Valid() && Routed(m)
    {
      match m
      case Response(_, reqId, payload, _) =>
        var report := Resolve(reqId, payload);
      case Emit(_, _, event, _, payload) =>
        Dispatch(event, payload);
      case EmitPublisher(_, event, payload) =>
        Dispatch(event, payload);
    }

    /**
     * A call from the host: an exposed function answers with a response
     * echoing `reqId` and tagged with this peer's id (nothing when it
     * throws); any other name gets no answer.
     */
    method OnCall(reqId: string, methodName: string, payload: Value)
      requires Valid() && isConnected
      modifies this
      ensures Valid() && Kept() && settled == old(settled)
      ensures Callable(available, methodName).Some? && !foreign.fails(Callable(available, methodName).value, payload) ==>
        outbox == old(outbox) + [Post(ToParent, origin, Response(id, reqId,
                                      foreign.result(Callable(available, methodName).value, payload), Some(subscriberId)))]
      ensures Callable(available, methodName).None? || foreign.fails(Callable(available, methodName).value, payload) ==>
        outbox == old(outbox)
    {
      var f := Callable(available, methodName);
      if f.Some? && !foreign.fails(f.value, payload) {
        outbox := outbox + [Post(ToParent, origin, Response(id, reqId, foreign.result(f.value, payload), Some(subscriberId)))];
      }
    }

    /**
     * `call(method, payload)` with `reqId` the id `getId` draws: registers the
     * reply continuation (rejecting with "No reponse <method>" on expiry),
     * then queues the call while disconnected and posts it with origin '*'
     * otherwise.
     */
    method Call(methodName: string, payload: Value, reqId: string)
      requires Valid()
      modifies this, rpc, callQueue
      ensures Valid() && Kept() && unchanged(events) && settled == old(settled)
      ensures rpc.methods == old(rpc.methods)[reqId := Entry(CallReply, Some(NoResponse(methodName)))]
      ensures reqId in rpc.timers
      ensures !isConnected ==>
        callQueue.items == old(callQueue.items) + [CallFn(id, reqId, methodName, payload, Some(subscriberId))]
        && outbox == old(outbox)
      ensures isConnected ==>
        callQueue.items == old(callQueue.items)
        && outbox == old(outbox) + [Post(ToParent, Some("*"), CallFn(id, reqId, methodName, payload, Some(subscriberId)))]
    {
      rpc.Register(reqId, Entry(CallReply, Some(NoResponse(methodName))));
      var msg := CallFn(id, reqId, methodName, payload, Some(subscriberId));
      if !isConnected {
        callQueue.Add(msg);
      } else {
        outbox := outbox + [Post(ToParent, Some("*"), msg)];
      }
    }

    /**
     * `on(event, callback)`: registers a plain listener; when the name is the
     * connected tag and the peer is already connected, dispatches it at once
     * with an empty record.
     */
    method On(event: string, handler: HandlerId)
      requires Valid()
      modifies events
      ensures Valid()
      ensures !(event == ConnectedTag && isConnected) ==>
        && UpdatedAt(events.events, old(events.events), event, ListenersOf(old(events.events), event) + [Listener(handler, false)])
        && events.log == old(events.log)
      ensures event == ConnectedTag && isConnected ==>
        && UpdatedAt(events.events, old(events.events), event,
                     AfterDispatch(ListenersOf(old(events.events), event) + [Listener(handler, false)]))
        && events.log == old(events.log)
                         + Calls(event, ListenersOf(old(events.events), event) + [Listener(handler, false)],
                                 Record(map[]), foreign.listenerFails)
    {
      events.AddEventListener(event, handler, false);
      if event == ConnectedTag && isConnected {
        Dispatch(event, Record(map[]));
      }
    }

    /** `removeListener(event)`: drops every listener of `event`; the empty name clears the whole bus. */
    method RemoveListener(event: string)
      requires Valid()
      modifies events
      ensures Valid()
      ensures event != "" ==> events.events == old(events.events) - {event}
      ensures event == "" ==> events.events == map[]
      ensures events.log == old(events.log)
    {
      events.RemoveAllListeners(Some(event));
    }

    /**
     * `emit(event, payload)` with `reqId` the id `getId` draws: queues the
     * emit envelope while disconnected and posts it with the current origin
     * otherwise.
     */
    method Emit(event: string, payload: Value, reqId: string)
      requires Valid()
      modifies this, callQueue
      ensures Valid() && Kept() && settled == old(settled)
      ensures !isConnected ==>
        callQueue.items == old(callQueue.items) + [Message.Emit(id, reqId, event, Some(subscriberId), payload)]
        && outbox == old(outbox)
      ensures isConnected ==>
        callQueue.items == old(callQueue.items)
        && outbox == old(outbox) + [Post(ToParent, origin, Message.Emit(id, reqId, event, Some(subscriberId), payload))]
    {
      var msg := Message.Emit(id, reqId, event, Some(subscriberId), payload);
      if !isConnected {
        callQueue.Add(msg);
      } else {
        outbox := outbox + [Post(ToParent, origin, msg)];
      }
    }

    /**
     * Calling the closure `addAvailable()` returns: a right-biased merge into
     * the peer's capability map, with nothing posted.
     */
    method MergeAvailable(added: Available)
      requires Valid()
      modifies this
      ensures Valid() && available == Merge(old(available), added)
      ensures isConnected == old(isConnected) && origin == old(origin) && props == old(props)
      ensures outbox == old(outbox) && settled == old(settled)
    {
      available := Merge(available, added);
    }
  }
}
