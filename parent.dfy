/**
 * The multi-frame host: owns a list of frames, admits subscribers through the
 * connect handshake, answers and forwards calls, relays emits, and pings its
 * subscribers.  Every `postMessage` is an append to `outbox`; every promise it
 * hands out settles into `settled`.
 */
module Parent {
  import opened Wrappers
  import opened Values
  import opened Messages
  import opened Rpc
  import opened Events
  import opened QueueHandler
  import opened Promises
  import opened HostCommon

  /** Event names the host emits.  Their real values live in a constants module outside this model. */
  const OnSubscriberEvent := "framecomms/onSubscriber"
  const OnFrameLoadedEvent := "framecomms/onFrameLoaded"

  /** An owned frame: its id, the origin posts to it are restricted to, its `src` and its attributes. */
  datatype Frame = Frame(id: string, origin: string, src: string, attributes: Value)

  /** `_post(msg)`: one post per owned frame, in frame order, each restricted to that frame's origin. */
  function Broadcast(frames: seq<Frame>, msg: Message): (posts: seq<Post>)
    ensures |posts| == |frames|
    ensures forall j :: 0 <= j < |frames| ==> posts[j] == Post(ToFrame(frames[j].id), Some(frames[j].origin), msg)
  {
    seq(|frames|, j requires 0 <= j < |frames| => Post(ToFrame(frames[j].id), Some(frames[j].origin), msg))
  }

  /** Posting each of `msgs` in turn to every frame: message order first, frame order within a message. */
  function FanOut(frames: seq<Frame>, msgs: seq<Message>): (posts: seq<Post>)
    ensures msgs == [] || frames == [] ==> posts == []
  {
    if msgs == [] then [] else FanOut(frames, msgs[..|msgs| - 1]) + Broadcast(frames, msgs[|msgs| - 1])
  }

  /** A post sent to one of the frames, to that frame's origin. */
  predicate ToOwnedFrame(frames: seq<Frame>, p: Post)
  {
    exists f :: f in frames && p.target == ToFrame(f.id) && p.targetOrigin == Some(f.origin)
  }

  /** A fan-out posts nothing but the given messages, each to an owned frame with that frame's origin. */
  lemma {:induction false} FanOutPosts(frames: seq<Frame>, msgs: seq<Message>)
    ensures forall j :: 0 <= j < |FanOut(frames, msgs)| ==>
      FanOut(frames, msgs)[j].msg in msgs && ToOwnedFrame(frames, FanOut(frames, msgs)[j])
  {
    if msgs != [] {
      var init := msgs[..|msgs| - 1];
      var last := msgs[|msgs| - 1];
      FanOutPosts(frames, init);
      var a: seq<Post>, b: seq<Post> := FanOut(frames, init), Broadcast(frames, last);
      assert FanOut(frames, msgs) == a + b;
      forall j | 0 <= j < |a + b|
        ensures (a + b)[j].msg in msgs && ToOwnedFrame(frames, (a + b)[j])
      {
        if j < |a| {
          assert (a + b)[j] == a[j];
          assert a[j].msg in init;
        } else {
          var k := j - |a|;
          assert (a + b)[j] == b[k];
          assert b[k].msg == last && frames[k] in frames;
        }
      }
    }
  }

  /** Extending the messages by one extends the posts by that message's broadcast. */
  lemma FanOutStep(frames: seq<Frame>, msgs: seq<Message>, i: nat)
    requires i < |msgs|
    ensures FanOut(frames, msgs[..i + 1]) == FanOut(frames, msgs[..i]) + Broadcast(frames, msgs[i])
  {
    assert msgs[..i + 1][..i] == msgs[..i];
  }

  /** One more subscriber extends a ping round by its pong registration and by its ping to every frame. */
  lemma PingRoundStep(m: map<string, Entry<Continuation, string>>, frames: seq<Frame>, id: string, subscribers: seq<string>, i: nat)
    requires i < |subscribers|
    ensures PongWaits(m, subscribers[..i + 1]) == PongWaits(m, subscribers[..i])[PongKey(subscribers[i]) := Entry(PongAck(subscribers[i]), None)]
    ensures FanOut(frames, Pings(id, subscribers[..i + 1])) == FanOut(frames, Pings(id, subscribers[..i])) + Broadcast(frames, Ping(id, subscribers[i]))
  {
    PongWaitsStep(m, subscribers, i);
    var pings := Pings(id, subscribers[..i + 1]);
    assert pings[..i] == Pings(id, subscribers[..i]);
    FanOutStep(frames, pings, i);
    assert pings[..i + 1] == pings;
  }

  /** Fanning out a concatenation posts the first messages first, then the rest. */
  lemma {:induction false} FanOutAppend(frames: seq<Frame>, a: seq<Message>, b: seq<Message>)
    ensures FanOut(frames, a + b) == FanOut(frames, a) + FanOut(frames, b)
  {
    if b == [] {
      assert a + b == a;
    } else {
      var front, last := b[..|b| - 1], b[|b| - 1];
      assert (a + b)[..|a + b| - 1] == a + front;
      assert (a + b)[|a + b| - 1] == last;
      assert FanOut(frames, a + b) == FanOut(frames, a + front) + Broadcast(frames, last);
      assert FanOut(frames, b) == FanOut(frames, front) + Broadcast(frames, last);
      FanOutAppend(frames, a, front);
    }
  }

  /** The payload of the frame-loaded event: `{id, src, attributes}` of the frame. */
  function LoadedPayload(f: Frame): (v: Value)
    ensures v.Record? && v.fields.Keys == {"id", "src", "attributes"}
    ensures v.fields["id"] == Str(f.id) && v.fields["src"] == Str(f.src) && v.fields["attributes"] == f.attributes
  {
    Record(map["id" := Str(f.id), "src" := Str(f.src), "attributes" := f.attributes])
  }

  class Host {
    /** The session id every envelope must carry. */
    const id: string
    /** `options?.origin ?? '*'`: the origin announced in connected replies. */
    const origin: string
    const foreign: Foreign
    const rpc: Registry<Continuation, string>
    const events: EventBus<HandlerId, Value>
    const callQueue: Queue<Message>

    var available: Available
    var globals: map<string, Value>
    var hasAnyIframeLoaded: bool
    var subscribers: seq<string>
    var iframes: seq<Frame>
    /** Frames whose one-shot load listener is still attached, by position in `iframes`. */
    var loadListening: set<nat>
    var outbox: seq<Post>
    var settled: seq<Settlement>

    /** How the host's own entries sit in its registry. */
    ghost predicate EntriesOk()
      reads this, rpc
    {
      forall k :: k in rpc.methods ==>
        match rpc.methods[k].onHandle
        case CallReply => rpc.methods[k].onDeregister.Some?
        case DeferredConnected(reply) =>
          && k == IframeLoaded && rpc.methods[k].onDeregister.None? && subscribers != []
          && reply.Connected? && reply.id == id && reply.origin == Some(origin)
        case PongAck(sid) => k == PongKey(sid) && rpc.methods[k].onDeregister.None?
        case Relay(_) => rpc.methods[k].onDeregister.None?
    }

    ghost predicate Valid()
      reads this, rpc, events
    {
      && rpc.Valid() && events.Valid()
      && globals == ParseGlobals(available)
      && (forall i :: i in loadListening ==> i < |iframes|)
      && EntriesOk()
    }

    /** Everything the host routes on is as it was; only posts, settlements and the parts named apart change. */
    twostate predicate Kept()
      reads this
    {
      && available == old(available) && globals == old(globals) && hasAnyIframeLoaded == old(hasAnyIframeLoaded)
      && subscribers == old(subscribers) && iframes == old(iframes) && loadListening == old(loadListening)
    }

    /** `parent({id, available, options})`, before any frame is created. */
    constructor (id: string, available: Available, originOption: Option<string>, foreign: Foreign)
      ensures Valid()
      ensures this.id == id && this.available == available && globals == ParseGlobals(available)
      ensures origin == originOption.GetOr("*") && this.foreign == foreign
      ensures !hasAnyIframeLoaded && subscribers == [] && iframes == [] && loadListening == {}
      ensures outbox == [] && settled == []
      ensures rpc.methods == map[] && events.events == map[] && events.log == [] && callQueue.items == []
      ensures fresh(rpc) && fresh(events) && fresh(callQueue)
    {
      this.id := id;
      origin := originOption.GetOr("*");
      this.foreign := foreign;
      rpc := new Registry();
      events := new EventBus();
      callQueue := new Queue();
      this.available := available;
      globals := ParseGlobals(available);
      hasAnyIframeLoaded := false;
      subscribers, iframes, loadListening := [], [], {};
      outbox, settled := [], [];
    }

    /** `_post(msg)`: posts `msg` to every owned frame. */
    method PostAll(msg: Message)
      requires Valid()
      modifies this
      ensures Valid() && Kept()
      ensures outbox == old(outbox) + Broadcast(iframes, msg) && settled == old(settled)
    {
      var posts := Broadcast(iframes, msg);
      var i := 0;
      while i < |iframes|
        invariant 0 <= i <= |iframes|
        invariant Valid() && Kept() && settled == old(settled)
        invariant outbox == old(outbox) + posts[..i]
      {
        outbox := outbox + [Post(ToFrame(iframes[i].id), Some(iframes[i].origin), msg)];
        assert posts[..i + 1] == posts[..i] + [posts[i]];
        i := i + 1;
      }
      assert posts[..i] == posts;
    }

    /** `callQueue.flush(_post)`: posts every queued envelope to every frame, in queue order, then empties the queue. */
    method FlushQueue()
      requires Valid()
      modifies this, callQueue
      ensures Valid() && Kept()
      ensures outbox == old(outbox) + FanOut(iframes, old(callQueue.items)) && callQueue.items == []
      ensures settled == old(settled)
    {
      var handed, threw := callQueue.Flush(_ => false);
      var i := 0;
      while i < |handed|
        invariant 0 <= i <= |handed|
        invariant Valid() && Kept() && settled == old(settled) && callQueue.items == []
        invariant outbox == old(outbox) + FanOut(iframes, handed[..i])
      {
        FanOutStep(iframes, handed, i);
        PostAll(handed[i]);
        i := i + 1;
      }
      assert handed[..i] == handed;
    }

    /** `events.handle(event, payload)`: runs the bus dispatch with the listeners' own failure behaviour. */
    method Dispatch(event: string, payload: Value)
      requires Valid()
      modifies events
      ensures Valid()
      ensures Dispatched(events, event, payload, foreign.listenerFails)
    {
      events.DispatchEvent(event, payload, foreign.listenerFails);
    }

    /** `emit(event, payload)`: dispatches locally first, then queues the envelope while there are no subscribers and posts it otherwise. */
    method Emit(event: string, payload: Value)
      requires Valid()
      modifies this, events, callQueue
      ensures Valid() && Kept() && unchanged(rpc) && settled == old(settled)
      ensures Dispatched(events, event, payload, foreign.listenerFails)
      ensures subscribers == [] ==>
        callQueue.items == old(callQueue.items) + [EmitPublisher(id, event, payload)] && outbox == old(outbox)
      ensures subscribers != [] ==>
        callQueue.items == old(callQueue.items) && outbox == old(outbox) + Broadcast(iframes, EmitPublisher(id, event, payload))
    {
      Dispatch(event, payload);
      var msg := EmitPublisher(id, event, payload);
      if |subscribers| == 0 {
        callQueue.Add(msg);
      } else {
        PostAll(msg);
      }
    }

    /** `_emitWithNoQueue(event, payload)`: dispatches locally, then posts to every frame whatever the subscribers. */
    method EmitWithNoQueue(event: string, payload: Value)
      requires Valid()
      modifies this, events
      ensures Valid() && Kept() && unchanged(rpc) && settled == old(settled)
      ensures Dispatched(events, event, payload, foreign.listenerFails)
      ensures outbox == old(outbox) + Broadcast(iframes, EmitPublisher(id, event, payload))
    {
      Dispatch(event, payload);
      PostAll(EmitPublisher(id, event, payload));
    }

    /** `on(event, callback)`: registers a plain (not `once`) listener. */
    method On(event: string, handler: HandlerId)
      requires Valid()
      modifies events
      ensures Valid()
      ensures UpdatedAt(events.events, old(events.events), event, ListenersOf(old(events.events), event) + [Listener(handler, false)])
      ensures events.log == old(events.log)
    {
      events.AddEventListener(event, handler, false);
    }

    /**
     * `call(method, payload)` with `reqId` the id `getId` draws: registers the
     * reply continuation (rejecting with "No reponse <method>" on expiry), then
     * queues the call while there are no subscribers and posts it otherwise.
     */
    method Call(methodName: string, payload: Value, reqId: string)
      requires Valid()
      modifies this, rpc, callQueue
      ensures Valid() && Kept() && unchanged(events) && settled == old(settled)
      ensures rpc.methods == old(rpc.methods)[reqId := Entry(CallReply, Some(NoResponse(methodName)))]
      ensures reqId in rpc.timers && rpc.timers.Keys == rpc.methods.Keys
      ensures subscribers == [] ==>
        callQueue.items == old(callQueue.items) + [CallFn(id, reqId, methodName, payload, None)] && outbox == old(outbox)
      ensures subscribers != [] ==>
        callQueue.items == old(callQueue.items) && outbox == old(outbox) + Broadcast(iframes, CallFn(id, reqId, methodName, payload, None))
    {
      rpc.Register(reqId, Entry(CallReply, Some(NoResponse(methodName))));
      var msg := CallFn(id, reqId, methodName, payload, None);
      if |subscribers| == 0 {
        callQueue.Add(msg);
      } else {
        PostAll(msg);
      }
    }

    /** `addAvailable(added)`: right-biased merge, globals recomputed, update-globals posted to every frame. */
    method AddAvailable(added: Available)
      requires Valid()
      modifies this
      ensures Valid() && settled == old(settled)
      ensures available == Merge(old(available), added) && globals == ParseGlobals(available)
      ensures outbox == old(outbox) + Broadcast(iframes, UpdateGlobals(id, Record(globals)))
      ensures hasAnyIframeLoaded == old(hasAnyIframeLoaded) && subscribers == old(subscribers)
      ensures iframes == old(iframes) && loadListening == old(loadListening)
    {
      available := Merge(available, added);
      globals := ParseGlobals(available);
      PostAll(UpdateGlobals(id, Record(globals)));
    }

    /**
     * The connected continuation: posts the connected reply to every frame,
     * flushes the queue, then emits the subscriber event.  A subscriber has
     * just joined, so that emit is posted, not queued.
     */
    method Announce(reply: Message)
      requires Valid() && subscribers != []
      modifies this, events, callQueue
      ensures Valid() && Kept() && unchanged(rpc) && settled == old(settled)
      ensures outbox == old(outbox) + Broadcast(iframes, reply) + FanOut(iframes, old(callQueue.items))
                        + Broadcast(iframes, EmitPublisher(id, OnSubscriberEvent, Undefined))
      ensures callQueue.items == []
      ensures Dispatched(events, OnSubscriberEvent, Undefined, foreign.listenerFails)
    {
      PostAll(reply);
      FlushQueue();
      Emit(OnSubscriberEvent, Undefined);
    }

    /**
     * The connect branch: admits `joining`, then sends the connected reply
     * (echoing `reqId`, with the origin and the globals of this moment) at
     * once if a frame has loaded, or defers that same reply under the fixed
     * key until one does.  A deferred reply replaces an earlier one.
     */
    method OnConnect(reqId: string, joining: string)
      requires Valid()
      modifies this, rpc, events, callQueue
      ensures Valid() && settled == old(settled)
      ensures subscribers == old(subscribers) + [joining]
      ensures available == old(available) && globals == old(globals) && hasAnyIframeLoaded == old(hasAnyIframeLoaded)
      ensures iframes == old(iframes) && loadListening == old(loadListening)
      ensures old(hasAnyIframeLoaded) ==>
        && unchanged(rpc) && callQueue.items == []
        && outbox == old(outbox) + Broadcast(iframes, Connected(id, reqId, Some(origin), Record(globals), None))
                     + FanOut(iframes, old(callQueue.items))
                     + Broadcast(iframes, EmitPublisher(id, OnSubscriberEvent, Undefined))
        && Dispatched(events, OnSubscriberEvent, Undefined, foreign.listenerFails)
      ensures !old(hasAnyIframeLoaded) ==>
        && rpc.methods == old(rpc.methods)[IframeLoaded := Entry(DeferredConnected(Connected(id, reqId, Some(origin), Record(globals), None)), None)]
        && IframeLoaded in rpc.timers
        && outbox == old(outbox) && unchanged(events, callQueue)
    {
      subscribers := subscribers + [joining];
      var reply := Connected(id, reqId, Some(origin), Record(globals), None);
      if hasAnyIframeLoaded {
        Announce(reply);
      } else {
        rpc.Register(IframeLoaded, Entry(DeferredConnected(reply), None));
      }
    }

    /**
     * `rpc.deregister(key)` as the host runs it: removes the entry and runs
     * its `onDeregister`, which for a call rejects that call's promise.
     */
    method DeregisterKey(key: string)
      requires Valid()
      modifies this, rpc
      ensures Valid() && Kept() && outbox == old(outbox)
      ensures rpc.methods == old(rpc.methods) - {key}
      ensures settled == old(settled) + (if key in old(rpc.methods) && old(rpc.methods)[key].onDeregister.Some?
                                        then [Rejected(key, old(rpc.methods)[key].onDeregister.value)] else [])
    {
      var existed, invoke := rpc.Deregister(key);
      if invoke.Some? {
        settled := settled + [Rejected(key, invoke.value)];
      }
    }

    /**
     * The expiry timer of a registered key fires.  The extra one-second
     * timer of a ping round also ends in `deregister` of its pong key, which
     * is `DeregisterKey`.
     */
    method TimerFires(key: string)
      requires Valid() && key in rpc.timers
      modifies this, rpc
      ensures Valid() && Kept() && outbox == old(outbox)
      ensures rpc.methods == old(rpc.methods) - {key}
      ensures old(rpc.methods)[key].onHandle.CallReply? ==>
        settled == old(settled) + [Rejected(key, old(rpc.methods)[key].onDeregister.value)]
      ensures !old(rpc.methods)[key].onHandle.CallReply? ==> settled == old(settled)
    {
      DeregisterKey(key);
    }

    /**
     * `rpc.handle({key, payload})` as the host runs it: the entry is taken
     * out first, then its continuation runs.  An unknown key changes nothing
     * and is reported as not found; every continuation of this role returns
     * `undefined` without throwing, which is what a known key reports.
     */
    method Resolve(key: string, payload: Value) returns (report: Response)
      requires Valid()
      modifies this, rpc, events, callQueue
      ensures Valid() && Kept()
      ensures key !in old(rpc.methods) ==> unchanged(this, rpc, events, callQueue)
      ensures key !in old(rpc.methods) ==> report == Failed(NotFound(key))
      ensures key in old(rpc.methods) ==> report == Resolved(Undefined, key)
      ensures key in old(rpc.methods) ==> rpc.methods == old(rpc.methods) - {key} && key !in rpc.timers
      ensures key in old(rpc.methods) && old(rpc.methods)[key].onHandle.CallReply? ==>
        settled == old(settled) + [Fulfilled(key, payload)] && outbox == old(outbox) && unchanged(events, callQueue)
      ensures key in old(rpc.methods) && old(rpc.methods)[key].onHandle.PongAck? ==>
        settled == old(settled) && outbox == old(outbox) && unchanged(events, callQueue)
      ensures key in old(rpc.methods) && old(rpc.methods)[key].onHandle.DeferredConnected? ==>
        && settled == old(settled) && callQueue.items == []
        && outbox == old(outbox) + Broadcast(iframes, old(rpc.methods)[key].onHandle.reply)
                     + FanOut(iframes, old(callQueue.items))
                     + Broadcast(iframes, EmitPublisher(id, OnSubscriberEvent, Undefined))
        && Dispatched(events, OnSubscriberEvent, Undefined, foreign.listenerFails)
      ensures key in old(rpc.methods) && old(rpc.methods)[key].onHandle.Relay? ==>
        && settled == old(settled) && unchanged(events, callQueue)
        && outbox == old(outbox) + Broadcast(iframes, Response(id, old(rpc.methods)[key].onHandle.callerReqId, payload, None))
    {
      var taken;
      taken, report := rpc.Handle(key, Returned(Undefined));
      if taken.Some? {
        Continue(key, taken.value.onHandle, payload);
      }
    }

    /** Runs the continuation of the entry just taken out under `key`. */
    method Continue(key: string, onHandle: Continuation, payload: Value)
      requires Valid() && key !in rpc.methods && key !in rpc.timers
      requires onHandle.PongAck? ==> key == PongKey(onHandle.sid)
      requires onHandle.DeferredConnected? ==> subscribers != []
      modifies this, rpc, events, callQueue
      ensures Valid() && Kept() && rpc.methods == old(rpc.methods) && key !in rpc.timers
      ensures onHandle.CallReply? ==>
        settled == old(settled) + [Fulfilled(key, payload)] && outbox == old(outbox) && unchanged(events, callQueue)
      ensures onHandle.PongAck? ==> settled == old(settled) && outbox == old(outbox) && unchanged(events, callQueue)
      ensures onHandle.DeferredConnected? ==>
        && settled == old(settled) && callQueue.items == []
        && outbox == old(outbox) + Broadcast(iframes, onHandle.reply) + FanOut(iframes, old(callQueue.items))
                     + Broadcast(iframes, EmitPublisher(id, OnSubscriberEvent, Undefined))
        && Dispatched(events, OnSubscriberEvent, Undefined, foreign.listenerFails)
      ensures onHandle.Relay? ==>
        && settled == old(settled) && unchanged(events, callQueue)
        && outbox == old(outbox) + Broadcast(iframes, Response(id, onHandle.callerReqId, payload, None))
    {
      match onHandle
      case CallReply =>
        settled := settled + [Fulfilled(key, payload)];
      case DeferredConnected(reply) =>
        Announce(reply);
      case PongAck(sid) =>
        var existed, invoke := rpc.Deregister(PongKey(sid));
      case Relay(callerReqId) =>
        PostAll(Response(id, callerReqId, payload, None));
    }

    /**
     * One tick of the ping interval: nothing without subscribers; otherwise,
     * per subscriber in order, registers its pong key and posts it a ping
     * whose `reqId` is its id.
     */
    method PingRound()
      requires Valid()
      modifies this, rpc
      ensures Valid() && Kept() && settled == old(settled)
      ensures rpc.methods == PongWaits(old(rpc.methods), subscribers)
      ensures outbox == old(outbox) + FanOut(iframes, Pings(id, subscribers))
    {
      ghost var waits, posted := rpc.methods, outbox;
      var i := 0;
      while i < |subscribers|
        invariant 0 <= i <= |subscribers|
        invariant Valid() && Kept() && settled == old(settled)
        invariant rpc.methods == PongWaits(waits, subscribers[..i])
        invariant outbox == posted + FanOut(iframes, Pings(id, subscribers[..i]))
      {
        PingNext(waits, posted, i);
        i := i + 1;
      }
      assert subscribers[..i] == subscribers;
    }

    /** Pings the `i`-th subscriber of a round that has pinged the first `i`, so the first `i + 1` are pinged. */
    method PingNext(ghost waits: map<string, Entry<Continuation, string>>, ghost posted: seq<Post>, i: nat)
      requires Valid() && i < |subscribers|
      requires rpc.methods == PongWaits(waits, subscribers[..i])
      requires outbox == posted + FanOut(iframes, Pings(id, subscribers[..i]))
      modifies this, rpc
      ensures Valid() && Kept() && settled == old(settled)
      ensures rpc.methods == PongWaits(waits, subscribers[..i + 1])
      ensures outbox == posted + FanOut(iframes, Pings(id, subscribers[..i + 1]))
    {
      PingRoundStep(waits, iframes, id, subscribers, i);
      PingOne(subscribers[i]);
    }

    /** One subscriber's share of a ping round: its pong key is registered, then its ping is posted. */
    method PingOne(sid: string)
      requires Valid()
      modifies this, rpc
      ensures Valid() && Kept() && settled == old(settled)
      ensures rpc.methods == old(rpc.methods)[PongKey(sid) := Entry(PongAck(sid), None)]
      ensures outbox == old(outbox) + Broadcast(iframes, Ping(id, sid))
    {
      rpc.Register(PongKey(sid), Entry(PongAck(sid), None));
      PostAll(Ping(id, sid));
    }

    /** `iframes.push(...)` of `createIframe`, with its load listener attached. */
    method AddFrame(frameId: string, frameOrigin: string, src: string, attributes: Value)
      requires Valid()
      modifies this
      ensures Valid() && settled == old(settled) && outbox == old(outbox)
      ensures iframes == old(iframes) + [Frame(frameId, frameOrigin, src, attributes)]
      ensures loadListening == old(loadListening) + {|old(iframes)|}
      ensures available == old(available) && globals == old(globals) && hasAnyIframeLoaded == old(hasAnyIframeLoaded)
      ensures subscribers == old(subscribers)
    {
      iframes := iframes + [Frame(frameId, frameOrigin, src, attributes)];
      loadListening := loadListening + {|iframes| - 1};
    }

    /**
     * `onLoad` of frame `i`: a one-shot listener.  The first load detaches it,
     * sets the loaded flag, emits the frame-loaded event without queuing, and
     * resolves the deferred connected reply if there is one.
     */
    method OnLoad(i: nat)
      requires Valid() && i < |iframes|
      modifies this, rpc, events, callQueue
      ensures Valid()
      ensures i !in old(loadListening) ==> unchanged(this, rpc, events, callQueue)
      ensures i in old(loadListening) ==>
        && hasAnyIframeLoaded && loadListening == old(loadListening) - {i}
        && subscribers == old(subscribers) && iframes == old(iframes) && available == old(available)
        && IframeLoaded !in rpc.methods && rpc.methods == old(rpc.methods) - {IframeLoaded}
        && (IframeLoaded in old(rpc.methods) ==> !old(rpc.methods)[IframeLoaded].onHandle.PongAck?)
        && (IframeLoaded in old(rpc.methods) && old(rpc.methods)[IframeLoaded].onHandle.CallReply? ==>
              outbox == old(outbox) + Broadcast(iframes, EmitPublisher(id, OnFrameLoadedEvent, LoadedPayload(iframes[i])))
              && callQueue.items == old(callQueue.items) && settled == old(settled) + [Fulfilled(IframeLoaded, Str(""))])
        && (IframeLoaded !in old(rpc.methods) ==>
              outbox == old(outbox) + Broadcast(iframes, EmitPublisher(id, OnFrameLoadedEvent, LoadedPayload(iframes[i])))
              && callQueue.items == old(callQueue.items) && settled == old(settled))
        && (IframeLoaded in old(rpc.methods) && old(rpc.methods)[IframeLoaded].onHandle.DeferredConnected? ==>
              outbox == old(outbox) + Broadcast(iframes, EmitPublisher(id, OnFrameLoadedEvent, LoadedPayload(iframes[i])))
                        + Broadcast(iframes, old(rpc.methods)[IframeLoaded].onHandle.reply)
                        + FanOut(iframes, old(callQueue.items))
                        + Broadcast(iframes, EmitPublisher(id, OnSubscriberEvent, Undefined))
              && callQueue.items == [] && settled == old(settled))
    {
      if i !in loadListening {
        return;
      }
      FirstLoad(i);
      var report := Resolve(IframeLoaded, Str(""));
    }

    /** The first load of frame `i` before the deferred reply: the listener detaches, the flag is set, the event goes out. */
    method FirstLoad(i: nat)
      requires Valid() && i < |iframes| && i in loadListening
      modifies this, events
      ensures Valid() && unchanged(rpc) && settled == old(settled)
      ensures hasAnyIframeLoaded && loadListening == old(loadListening) - {i}
      ensures subscribers == old(subscribers) && iframes == old(iframes) && available == old(available) && globals == old(globals)
      ensures outbox == old(outbox) + Broadcast(iframes, EmitPublisher(id, OnFrameLoadedEvent, LoadedPayload(iframes[i])))
    {
      loadListening := loadListening - {i};
      hasAnyIframeLoaded := true;
      EmitWithNoQueue(OnFrameLoadedEvent, LoadedPayload(iframes[i]));
    }

    /**
     * `_onEvent`: ignores a message without data or for another session;
     * admits connects from anyone; drops every other kind from a sender that
     * is not a subscriber; otherwise routes on the kind.  `forwardReqId` is
     * the id drawn when an unknown call is forwarded.
     */
    method OnEvent(data: Option<Message>, forwardReqId: string)
      requires Valid()
      modifies this, rpc, events, callQueue
      ensures Valid()
      ensures data.None? || data.value.id != id ==> unchanged(this, rpc, events, callQueue)
      ensures data.Some? && data.value.id == id && !data.value.Connect?
        && (SubscriberIdOf(data.value).None? || SubscriberIdOf(data.value).value !in old(subscribers))
        ==> unchanged(this, rpc, events, callQueue)
      ensures data.Some? && data.value.id == id && data.value.Connect? ==>
        subscribers == old(subscribers) + [data.value.joining] && settled == old(settled)
      ensures data.Some? && data.value.id == id && data.value.Connect? && old(hasAnyIframeLoaded) ==>
        && unchanged(rpc) && callQueue.items == []
        && outbox == old(outbox) + Broadcast(iframes, Connected(id, data.value.reqId, Some(origin), Record(globals), None))
                     + FanOut(iframes, old(callQueue.items))
                     + Broadcast(iframes, EmitPublisher(id, OnSubscriberEvent, Undefined))
        && Dispatched(events, OnSubscriberEvent, Undefined, foreign.listenerFails)
      ensures data.Some? && data.value.id == id && data.value.Connect? && !old(hasAnyIframeLoaded) ==>
        && rpc.methods == old(rpc.methods)[IframeLoaded := Entry(DeferredConnected(Connected(id, data.value.reqId, Some(origin), Record(globals), None)), None)]
        && outbox == old(outbox) && unchanged(events, callQueue)
      ensures data.Some? && data.value.id == id && !data.value.Connect? ==> subscribers == old(subscribers)
      ensures data.Some? && data.value.id == id && !data.value.Connect?
        && SubscriberIdOf(data.value).Some? && SubscriberIdOf(data.value).value in old(subscribers)
        ==> Routed(data.value, forwardReqId)
    {
      if data.None? || data.value.id != id {
        return;
      }
      var m := data.value;
      if m.Connect? {
        OnConnect(m.reqId, m.joining);
        return;
      }
      var sid := SubscriberIdOf(m);
      if sid.Some? && sid.value in subscribers {
        Route(m, forwardReqId);
      }
    }

    /**
     * What `_onEvent` does with a subscriber's envelope other than a connect.
     * A pong resolves its pong key; a call is answered, ignored or forwarded
     * under `forwardReqId` as `OnCall` says; a response resolves its `reqId`,
     * so a pending call settles with the payload and a relay posts the payload
     * back under the caller's `reqId`; an emit is relayed to every frame and
     * dispatched; every other kind changes nothing.
     */
    twostate predicate Routed(m: Message, forwardReqId: string)
      reads this, rpc, events, callQueue
    {
      && Kept()
      && (m.Pong? ==> rpc.methods == old(rpc.methods) - {PongKey(m.peerId)})
      && (m.CallFn? && m.methodName in available && available[m.methodName].Fn? ==>
            && unchanged(rpc, events, callQueue) && settled == old(settled)
            && outbox == old(outbox) + (if foreign.fails(available[m.methodName].fn, m.payload) then []
                                        else Broadcast(iframes, Response(id, m.reqId, foreign.result(available[m.methodName].fn, m.payload), None))))
      && (m.CallFn? && m.methodName in available && available[m.methodName].Prop? ==> unchanged(this, rpc, events, callQueue))
      && (m.CallFn? && m.methodName !in available ==>
            && rpc.methods == old(rpc.methods)[forwardReqId := Entry(CallReply, Some(NoResponse(m.methodName)))]
            && unchanged(events) && callQueue.items == old(callQueue.items) && settled == old(settled)
            && outbox == old(outbox) + Broadcast(iframes, CallFn(id, forwardReqId, m.methodName, m.payload, None)))
      && (m.Response? ==> rpc.methods == old(rpc.methods) - {m.reqId})
      && (m.Response? && m.reqId !in old(rpc.methods) ==> unchanged(this, rpc, events, callQueue))
      && (m.Response? && m.reqId in old(rpc.methods) && old(rpc.methods)[m.reqId].onHandle.CallReply? ==>
            settled == old(settled) + [Fulfilled(m.reqId, m.payload)] && outbox == old(outbox) && unchanged(events, callQueue))
      && (m.Response? && m.reqId in old(rpc.methods) && old(rpc.methods)[m.reqId].onHandle.Relay? ==>
            && settled == old(settled) && unchanged(events, callQueue)
            && outbox == old(outbox) + Broadcast(iframes, Response(id, old(rpc.methods)[m.reqId].onHandle.callerReqId, m.payload, None)))
      && (m.Emit? ==>
            && unchanged(rpc, callQueue) && settled == old(settled)
            && outbox == old(outbox) + Broadcast(iframes, Message.Emit(id, m.reqId, m.event, m.subscriberId, m.payload))
            && Dispatched(events, m.event, m.payload, foreign.listenerFails))
      && (m.Ping? || m.UpdateGlobals? || m.Connected? || m.EmitPublisher? ==> unchanged(this, rpc, events, callQueue))
    }

    /** `_onEvent` for an envelope that passed the session and subscriber gates: routes on the kind. */
    method Route(m: Message, forwardReqId: string)
      requires Valid() && m.id == id && !m.Connect?
      requires SubscriberIdOf(m).Some? && SubscriberIdOf(m).value in subscribers
      modifies this, rpc, events, callQueue
      ensures Valid() && Routed(m, forwardReqId)
    {
      if m.Pong? || m.Response? {
        RouteResolve(m, forwardReqId);
      } else if m.CallFn? {
        RouteCall(m, forwardReqId);
      } else if m.Emit? {
        RouteEmit(m, forwardReqId);
      }
    }

    /** A subscriber's pong or response: `rpc.handle` of the pong key or of the `reqId`. */
    method RouteResolve(m: Message, forwardReqId: string)
      requires Valid() && (m.Pong? || m.Response?)
      modifies this, rpc, events, callQueue
      ensures Valid() && Routed(m, forwardReqId)
    {
      var report := Resolve(if m.Pong? then PongKey(m.peerId) else m.reqId, if m.Pong? then Str("") else m.payload);
    }

    /** A subscriber's call: `OnCall`, forwarding under `forwardReqId`. */
    method RouteCall(m: Message, forwardReqId: string)
      requires Valid() && m.CallFn? && subscribers != []
      modifies this, rpc, events, callQueue
      ensures Valid() && Routed(m, forwardReqId)
    {
      OnCall(m.reqId, m.methodName, m.payload, forwardReqId);
    }

    /** A subscriber's emit: `OnEmit`. */
    method RouteEmit(m: Message, forwardReqId: string)
      requires Valid() && m.Emit?
      modifies this, rpc, events, callQueue
      ensures Valid() && Routed(m, forwardReqId)
    {
      OnEmit(m.reqId, m.event, m.subscriberId, m.payload);
    }

    /**
     * A call from a subscriber: an exposed function answers with a response
     * echoing `reqId` (nothing when it throws); a name bound to a plain value
     * gets no answer; an unknown name is forwarded to every frame as a new call.
     */
    method OnCall(reqId: string, methodName: string, payload: Value, forwardReqId: string)
      requires Valid() && subscribers != []
      modifies this, rpc, callQueue
      ensures Valid() && Kept() && unchanged(events)
      ensures methodName in available && available[methodName].Fn? ==>
        var f := available[methodName].fn;
        && unchanged(rpc, callQueue) && settled == old(settled)
        && outbox == old(outbox) + (if foreign.fails(f, payload) then []
                                    else Broadcast(iframes, Response(id, reqId, foreign.result(f, payload), None)))
      ensures methodName in available && available[methodName].Prop? ==>
        unchanged(this, rpc, callQueue)
      ensures methodName !in available ==>
        && rpc.methods == old(rpc.methods)[forwardReqId := Entry(CallReply, Some(NoResponse(methodName)))]
        && callQueue.items == old(callQueue.items) && settled == old(settled)
        && outbox == old(outbox) + Broadcast(iframes, CallFn(id, forwardReqId, methodName, payload, None))
    {
      if methodName in available {
        match available[methodName]
        case Fn(f) =>
          if !foreign.fails(f, payload) {
            PostAll(Response(id, reqId, foreign.result(f, payload), None));
          }
        case Prop(_) =>
      } else {
        Call(methodName, payload, forwardReqId);
      }
    }

    /**
     * The forward of an unknown call as the repository's own test expects it
     * to behave: the new call under `forwardReqId` is posted to every frame,
     * and its continuation relays the sibling's answer under the caller's
     * `reqId` instead of settling a promise of the host's own.
     */
    method Forward(reqId: string, methodName: string, payload: Value, forwardReqId: string)
      requires Valid()
      modifies this, rpc
      ensures Valid() && Kept() && settled == old(settled)
      ensures rpc.methods == old(rpc.methods)[forwardReqId := Entry(Relay(reqId), None)]
      ensures outbox == old(outbox) + Broadcast(iframes, CallFn(id, forwardReqId, methodName, payload, None))
    {
      rpc.Register(forwardReqId, Entry(Relay(reqId), None));
      PostAll(CallFn(id, forwardReqId, methodName, payload, None));
    }

    /** An emit from a subscriber: relayed to every frame with all its fields, then dispatched locally. */
    method OnEmit(reqId: string, event: string, subscriberId: Option<string>, payload: Value)
      requires Valid()
      modifies this, events
      ensures Valid() && Kept() && unchanged(rpc) && settled == old(settled)
      ensures outbox == old(outbox) + Broadcast(iframes, Message.Emit(id, reqId, event, subscriberId, payload))
      ensures Dispatched(events, event, payload, foreign.listenerFails)
    {
      PostAll(Message.Emit(id, reqId, event, subscriberId, payload));
      Dispatch(event, payload);
    }
  }

  /**
   * A subscriber calls a name the host does not expose, and the sibling that
   * has it answers: as written, the host posts the forwarded call and settles
   * its own promise with the answer, and no response of any kind reaches the
   * frames, so the caller's `reqId` is never answered.
   */
  method ForwardedAnswerDropped(h: Host, caller: string, sibling: string, reqId: string, methodName: string,
                                payload: Value, forwardReqId: string, answer: Value, nextReqId: string)
    requires h.Valid() && caller in h.subscribers && sibling in h.subscribers && methodName !in h.available
    modifies h, h.rpc, h.events, h.callQueue
    ensures h.outbox == old(h.outbox) + Broadcast(h.iframes, CallFn(h.id, forwardReqId, methodName, payload, None))
    ensures forall j :: |old(h.outbox)| <= j < |h.outbox| ==> !h.outbox[j].msg.Response?
    ensures h.settled == old(h.settled) + [Fulfilled(forwardReqId, answer)]
  {
    h.OnEvent(Some(CallFn(h.id, reqId, methodName, payload, Some(caller))), forwardReqId);
    h.OnEvent(Some(Response(h.id, forwardReqId, answer, Some(sibling))), nextReqId);
  }

  /**
   * The same exchange with the corrected forward: the sibling's answer is
   * posted to every frame, the caller's among them, as a response under the
   * caller's `reqId`, and the host settles nothing of its own.
   */
  method ForwardedAnswerRelayed(h: Host, sibling: string, reqId: string, methodName: string,
                                payload: Value, forwardReqId: string, answer: Value, nextReqId: string)
    requires h.Valid() && sibling in h.subscribers
    modifies h, h.rpc, h.events, h.callQueue
    ensures h.outbox == old(h.outbox) + Broadcast(h.iframes, CallFn(h.id, forwardReqId, methodName, payload, None))
                                      + Broadcast(h.iframes, Response(h.id, reqId, answer, None))
    ensures forall f :: f in h.iframes ==> Post(ToFrame(f.id), Some(f.origin), Response(h.id, reqId, answer, None)) in h.outbox
    ensures h.settled == old(h.settled)
  {
    h.Forward(reqId, methodName, payload, forwardReqId);
    h.OnEvent(Some(Response(h.id, forwardReqId, answer, Some(sibling))), nextReqId);
  }
}
