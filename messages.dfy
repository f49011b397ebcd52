/**
 * The wire envelopes exchanged between a host and its peers, and the posts
 * that put them on the channel.
 */
module Messages {
  import opened Wrappers
  import opened Values

  const CallFnTag := "@FRAMECOMMS/callfn"
  const ResponseTag := "@FRAMECOMMS/response"
  const ConnectTag := "@FRAMECOMMS/connect"
  const ConnectedTag := "@FRAMECOMMS/connected"
  const PingTag := "@FRAMECOMMS/ping"
  const PongTag := "@FRAMECOMMS/pong"
  const UpdateGlobalsTag := "@FRAMECOMMS/updateglobals"
  const EmitTag := "@FRAMECOMMS/emit"

  /**
   * One envelope.  Every kind carries the session `id`.  The first eight
   * constructors are the members of the `Events` union; `EmitPublisher` is the
   * reduced emit envelope a host posts for its own events, which has the emit
   * tag but neither `reqId` nor `subscriberId`.
   *
   * `Connect.joining` is the connect payload (always the sender's subscriber
   * id), and `Pong.peerId` is the pong's mandatory `subscriberId`.
   * `Connected.origin` is optional because the single-frame host posts its
   * connected reply without one.
   */
  datatype Message =
    | CallFn(id: string, reqId: string, methodName: string, payload: Value, subscriberId: Option<string>)
    | Response(id: string, reqId: string, payload: Value, subscriberId: Option<string>)
    | Connect(id: string, reqId: string, joining: string, subscriberId: Option<string>)
    | Connected(id: string, reqId: string, origin: Option<string>, payload: Value, subscriberId: Option<string>)
    | Ping(id: string, reqId: string)
    | Pong(id: string, reqId: string, peerId: string)
    | UpdateGlobals(id: string, payload: Value)
    | Emit(id: string, reqId: string, event: string, subscriberId: Option<string>, payload: Value)
    | EmitPublisher(id: string, event: string, payload: Value)

  /** The `type` field of an envelope. */
  function Tag(m: Message): (t: string)
    ensures t in {CallFnTag, ResponseTag, ConnectTag, ConnectedTag, PingTag, PongTag, UpdateGlobalsTag, EmitTag}
  {
    match m
    case CallFn(_, _, _, _, _) => CallFnTag
    case Response(_, _, _, _) => ResponseTag
    case Connect(_, _, _, _) => ConnectTag
    case Connected(_, _, _, _, _) => ConnectedTag
    case Ping(_, _) => PingTag
    case Pong(_, _, _) => PongTag
    case UpdateGlobals(_, _) => UpdateGlobalsTag
    case Emit(_, _, _, _, _) => EmitTag
    case EmitPublisher(_, _, _) => EmitTag
  }

  /** Two envelopes are of the same kind; both emit shapes count as one kind. */
  predicate SameKind(a: Message, b: Message) {
    (a.CallFn? && b.CallFn?) || (a.Response? && b.Response?) || (a.Connect? && b.Connect?)
    || (a.Connected? && b.Connected?) || (a.Ping? && b.Ping?) || (a.Pong? && b.Pong?)
    || (a.UpdateGlobals? && b.UpdateGlobals?)
    || ((a.Emit? || a.EmitPublisher?) && (b.Emit? || b.EmitPublisher?))
  }

  /** The eight tags are pairwise distinct, so a test on `type` selects exactly one kind. */
  lemma TagSelectsKind(a: Message, b: Message)
    ensures Tag(a) == Tag(b) <==> SameKind(a, b)
  {
    assert |CallFnTag| == 18 && |ResponseTag| == 20 && |ConnectTag| == 19 && |ConnectedTag| == 21;
    assert |PingTag| == 16 && |PongTag| == 16 && |UpdateGlobalsTag| == 25 && |EmitTag| == 16;
    assert PingTag[13] != PongTag[13] && PingTag[12] != EmitTag[12] && PongTag[12] != EmitTag[12];
  }

  /** `event.data['subscriberId']`; `None` stands for `undefined`. */
  function SubscriberIdOf(m: Message): (sid: Option<string>)
    ensures m.Pong? ==> sid == Some(m.peerId)
    ensures m.Ping? || m.UpdateGlobals? || m.EmitPublisher? ==> sid.None?
    ensures m.CallFn? || m.Response? || m.Connect? || m.Connected? || m.Emit? ==> sid == m.subscriberId
  {
    match m
    case Pong(_, _, p) => Some(p)
    case Ping(_, _) => None
    case UpdateGlobals(_, _) => None
    case EmitPublisher(_, _, _) => None
    case _ => m.subscriberId
  }

  /**
   * Membership in the `Events` union: everything except the reduced emit
   * envelope and a connected reply that lacks its `origin`.
   */
  predicate InEventsUnion(m: Message) {
    !m.EmitPublisher? && (m.Connected? ==> m.origin.Some?)
  }

  /** Only connected replies can carry an origin. */
  function OriginOf(m: Message): (o: Option<string>)
    ensures o.Some? ==> m.Connected?
    ensures m.Connected? ==> o == m.origin
  {
    if m.Connected? then m.origin else None
  }

  /** A reduced emit envelope keeps the emit tag yet lies outside the union. */
  lemma EmitPublisherOutsideUnion(m: Message)
    requires m.EmitPublisher?
    ensures Tag(m) == EmitTag && !InEventsUnion(m) && SubscriberIdOf(m).None?
  {
  }

  /** The fixed registry key under which a host defers its connected reply until a frame loads. */
  const IframeLoaded := "3q6vOw"

  /** The registry key a host waits on for the pong of subscriber `sid`: `${pongMessage}:${sid}`. */
  function PongKey(sid: string): (key: string)
    ensures |key| == |PongTag| + 1 + |sid| && key[..|PongTag| + 1] == PongTag + ":" && key[|PongTag| + 1..] == sid
  {
    PongTag + ":" + sid
  }

  /** Different subscribers wait on different pong keys. */
  lemma PongKeyInjective(a: string, b: string)
    ensures PongKey(a) == PongKey(b) <==> a == b
  {
    if PongKey(a) == PongKey(b) {
      assert a == PongKey(a)[|PongTag| + 1..];
    }
  }

  /** No pong key collides with the deferred-connect key. */
  lemma PongKeyNotIframeLoaded(sid: string)
    ensures PongKey(sid) != IframeLoaded
  {
    assert |PongKey(sid)| >= 17;
  }

  /** Where a post goes: the embedding window, or one owned frame. */
  datatype Target = ToParent | ToFrame(frameId: string)

  /** One `postMessage(msg, targetOrigin)` call; `None` passes `undefined` as origin. */
  datatype Post = Post(target: Target, targetOrigin: Option<string>, msg: Message)
}
