# framecomms, modelled in Dafny

framecomms lets a page (the host) and the frames it embeds (the peers)
exchange remote calls, fire-and-forget events and a small set of shared
properties over `postMessage`. This project models its core as imperative
Dafny and proves what each piece promises:

- the **correlation registry** of `src/rpc.ts`: pending continuations by key,
  each with an auto-expiry timer (`Rpc.Registry`);
- the **event bus** of `src/events.ts`: ordered `{handler, once}` listeners per
  event name, dispatched over a snapshot (`Events.EventBus`);
- the **outbound queue** of `src/queue-handler.ts` (`QueueHandler.Queue`);
- the **wire envelopes** of `src/types/post-messages.ts` (`Messages.Message`);
- three **role routers**, each a class over the pieces above:
  - the multi-frame host of `src/parent.ts` (`Parent.Host`);
  - the peer of `src/subscriber.ts` (`Subscriber.Peer`);
  - the older single-frame host of `src/publisher.ts` (`Publisher.FrameHost`).

How the outside world appears in the model:

- Every `postMessage` is an append of a `Post(target, targetOrigin, msg)` to
  the role's `outbox`.
- Every promise a role hands out settles into its `settled` log as
  `Fulfilled(reqId, value)` or `Rejected(reqId, reason)`.
- A received message is a call of the role's `OnEvent`.
- A timer firing is an explicit `TimerFires(key)` step; one tick of the
  ping interval is an explicit `PingRound()` step.
- The registry never runs a continuation itself. `Handle` and `Deregister`
  return the continuation, and the role runs it. Continuations are a small
  datatype: `CallReply`, `DeferredConnected(reply)` and `PongAck(sid)` for
  the hosts; `ConnectDone` and `CallReply` for the peer. A fourth host
  continuation, `Relay(callerReqId)`, belongs to the corrected forward
  described under "## Findings"; only `Parent.Host.Forward` registers it.
- User functions and event listeners are opaque ids. A `Foreign` value says
  what a user function returns for a payload and whether a function or a
  listener throws.
- Ids that `getId` draws are parameters of the operations that draw them.

Each class carries a `Valid()` invariant that its methods preserve.

- Registry: timers and registered keys coincide; timer handles are distinct.
- Bus: no event name maps to an empty list.
- Hosts: `globals` is always `_parseGlobals(available)`. Every registry
  entry is one the host itself made: the deferred connected reply sits only
  under the fixed key, and a pong wait only under its pong key.
- Peer: before the handshake, nothing but connect requests has been posted.
  The connect continuation is registered at most once, and only while
  disconnected. Once connected, the queue stays empty.

## Model

| member | source | states |
|---|---|---|
| Rpc.NotFound | src/rpc.ts:67-71 | the error `handle` reports for an unregistered key: `Method "<key>" not found.`, with the key at its place |
| Rpc.Settle | src/rpc.ts:76-81 | what `handle` reports for a registered key: `{result, key}` echoing the key exactly when `onHandle` returned, and `{error}` with the thrown message or "Unknown error" otherwise |
| Rpc.Registry.constructor | src/rpc.ts:22-24 | a new registry is empty, has no timers and satisfies the invariant |
| Rpc.Registry.ClearTimer | src/rpc.ts:26-33 | the key's timer is dropped if present; entries and all other timers stay |
| Rpc.Registry.SetAutoDeregisterTimer | src/rpc.ts:35-43 | the key gets a fresh timer handle, replacing the old one; entries unchanged |
| Rpc.Registry.Register | src/rpc.ts:45-48 | exactly one entry and one fresh timer under the key; the earlier entry is replaced and the earlier timer is no longer live; other keys untouched; invariant kept |
| Rpc.Registry.Deregister | src/rpc.ts:50-64 | returns whether the key existed and the `onDeregister` to run (only if present); entry and timer removed; other keys untouched |
| Rpc.Registry.Expire | src/rpc.ts:38-40 | a live timer firing is exactly `deregister` of its key, which always existed |
| Rpc.Registry.Handle | src/rpc.ts:66-82 | an unknown key changes nothing and reports `NotFound(key)`; a known key's entry is returned, the entry and its timer are removed before the continuation runs, and the report is `Settle(key, outcome)` of the continuation's outcome |
| Rpc.HandleThenDeregister | src/rpc.ts:50-77 | after `handle` has taken a key, a later `deregister` reports false and runs no `onDeregister` |
| Rpc.HandleTwice | src/rpc.ts:66-82 | a key is handled once: the first `handle` reports its outcome, a second one reports the key as not found |
| Rpc.HandleThenReregister | src/rpc.ts:73-77 | a continuation that re-registers its own key during `handle` leaves the new registration, with a live timer, in place |
| Events.RemoveAll | src/events.ts:25 | the filter never grows the list, leaves no listener of a removed handler, and returns the list itself exactly when it holds none |
| Events.AfterDispatch | src/events.ts:39-47 | after a dispatch the key holds only snapshot listeners, none of them `once`, and no more than the snapshot |
| Events.RemoveAllMembers | src/events.ts:25 | the filter keeps exactly the listeners whose handler is not removed |
| Events.RemoveAllAppend | src/events.ts:25 | the filter distributes over concatenation, so survivors keep their order |
| Events.RemoveAllTwice | src/events.ts:21-46 | filtering twice equals filtering once by both handler sets |
| Events.RemoveAllNone | src/events.ts:25 | a list without the removed handlers survives the filter unchanged |
| Events.RemoveAfterAdd | src/events.ts:11-31 | removing a handler right after adding it gives what removal gives without the addition |
| Events.OnceInMembers | src/events.ts:39-46 | the once-set of a snapshot holds the handler of each `once` listener and nothing else |
| Events.CallsIn | src/events.ts:39-42 | the calls of the first n dispatch steps are exactly n |
| Events.CallsInAt | src/events.ts:37-42 | the j-th call of a dispatch is of the j-th snapshot entry, whether or not earlier handlers threw |
| Events.OnceHandlerNotCalledAgain | src/events.ts:44-46 | a `once` handler of a dispatch's snapshot is not called by the next dispatch of the same event |
| Events.DispatchStep | src/events.ts:39-47 | one loop turn moves the bus from "once handlers of the first i entries removed" to "of the first i+1" |
| Events.LogStep | src/events.ts:39-42 | one loop turn extends the call log by the call of entry i |
| Events.EventBus.constructor | src/events.ts:8-9 | a new bus has no listeners and an empty log |
| Events.EventBus.AddEventListener | src/events.ts:11-19 | `{handler, once}` is appended to the key's list; every other key untouched; no key maps to an empty list |
| Events.EventBus.RemoveEventListener | src/events.ts:21-31 | no-op for an absent key; otherwise every entry with the handler is dropped, others kept in order, and the key is deleted when nothing is left |
| Events.EventBus.DispatchEvent | src/events.ts:33-48 | no-op without listeners; otherwise the snapshot's handlers are called in order, throwing ones included, and afterwards the key holds the snapshot minus its `once` handlers; other keys untouched |
| Events.EventBus.CallListener | src/events.ts:40-46 | one call is logged, its throw swallowed, and a `once` handler is removed afterwards |
| Events.EventBus.RemoveAllListeners | src/events.ts:50-53 | removes only the key, or everything when the key is absent or empty |
| QueueHandler.FirstFailing | src/queue-handler.ts:11 | `None` exactly when the sink accepts every element; otherwise the first element it throws on |
| QueueHandler.Delivered | src/queue-handler.ts:11 | a flush hands over everything, or the prefix up to and including the throwing element |
| QueueHandler.DeliveredInOrder | src/queue-handler.ts:11 | delivered elements are the queue's own, unmodified, in queue order, and all are delivered exactly when the sink never throws |
| QueueHandler.Queue.constructor | src/queue-handler.ts:4 | a new queue is empty |
| QueueHandler.Queue.Add | src/queue-handler.ts:6-8 | the element is appended at the tail; earlier ones stay in order |
| QueueHandler.Queue.Flush | src/queue-handler.ts:10-13 | the sink receives the delivered prefix in order; the queue is emptied exactly when no element threw, and kept whole otherwise |
| QueueHandler.FlushTwice | src/queue-handler.ts:10-13 | two flushes with a non-throwing sink deliver each element once: the second hands over nothing |
| Values.ParseGlobals | src/parent.ts:27-33 | exactly the non-function entries of the capability map, with their values |
| Values.Merge | src/parent.ts:262-265 | a right-biased merge that keeps every earlier name |
| Values.Callable | src/parent.ts:152-156 | finds a function exactly when the name is present and bound to a function |
| Values.MergeKeepsGlobals | src/parent.ts:261-267 | a shared property not overridden by the merge survives with its value |
| Messages.Tag | src/types/post-messages.ts:1-94 | every envelope carries one of the eight tags |
| Messages.TagSelectsKind | src/types/post-messages.ts:1-68 | two envelopes have the same tag exactly when they are of the same kind, so the eight tags are pairwise distinct |
| Messages.SubscriberIdOf | src/types/post-messages.ts:3-77 | pong's `subscriberId` is mandatory; ping and update-globals have none; the other kinds carry an optional one |
| Messages.OriginOf | src/types/post-messages.ts:34-41 | only connected replies carry an origin |
| Messages.EmitPublisherOutsideUnion | src/types/post-messages.ts:79-94 | the reduced emit envelope has the emit tag, no subscriber id, and is outside the `Events` union |
| Messages.PongKey | src/parent.ts:145 | the pong key is the pong tag, a colon and the subscriber id |
| Messages.PongKeyInjective | src/parent.ts:143-149 | different subscribers wait on different pong keys |
| Messages.PongKeyNotIframeLoaded | src/parent.ts:25 | no pong key collides with the deferred-connect key |
| Promises.NoResponse | src/parent.ts:241 | the rejection of an unanswered call is "No reponse " followed by the method name |
| HostCommon.Pings | src/parent.ts:219-223 | one ping per subscriber, in order, whose `reqId` is that subscriber's id |
| HostCommon.PongKeys | src/parent.ts:206-217 | the keys a ping round registers: one pong key per subscriber and no other |
| HostCommon.PongWaitsStep | src/parent.ts:206-217 | one more subscriber extends a round by exactly its pong registration |
| HostCommon.PongWaitsKeys | src/parent.ts:206-217 | a round adds exactly its subscribers' pong keys to the registry's keys |
| HostCommon.PongWaitsMembers | src/parent.ts:206-217 | after a round, every subscriber waits on its own pong key and every other key is as it was |
| Parent.Broadcast | src/parent.ts:99-103 | one post per owned frame, in frame order, restricted to that frame's origin |
| Parent.FanOut | src/parent.ts:123 | flushing nothing, or to no frames, posts nothing |
| Parent.FanOutPosts | src/parent.ts:99-123 | a flush posts only queued envelopes, each to an owned frame restricted to that frame's origin |
| Parent.PingRoundStep | src/parent.ts:206-225 | one more subscriber extends a round by its pong registration and its ping to every frame |
| Parent.LoadedPayload | src/parent.ts:343 | the frame-loaded payload is a record of exactly `id`, `src` and `attributes`, holding the frame's own |
| Parent.FanOutStep | src/parent.ts:123 | flushing one more queued envelope extends the posts by its broadcast |
| Parent.FanOutAppend | src/parent.ts:123 | flushing a concatenation posts the first part first |
| Parent.Host.constructor | src/parent.ts:76-97 | no frames, subscribers or loaded frame; globals parsed from `available`; origin is `options.origin`, or '*' when absent |
| Parent.Host.PostAll | src/parent.ts:99-103 | `_post` posts the envelope to every frame and changes nothing else |
| Parent.Host.FlushQueue | src/parent.ts:123 | every queued envelope is posted to every frame, in queue order, then the queue is empty |
| Parent.Host.Dispatch | src/parent.ts:297 | `events.handle` is one bus dispatch |
| Parent.Host.Emit | src/parent.ts:290-305 | dispatches locally first, then queues the envelope without subscribers and posts it otherwise |
| Parent.Host.EmitWithNoQueue | src/parent.ts:278-288 | dispatches locally, then posts to every frame whatever the subscribers |
| Parent.Host.On | src/parent.ts:307-312 | appends a plain listener and calls nothing |
| Parent.Host.Call | src/parent.ts:234-259 | registers the reqId with "No reponse <method>" on expiry; queues the call without subscribers and posts it otherwise |
| Parent.Host.AddAvailable | src/parent.ts:261-276 | right-biased merge, globals recomputed from it, update-globals with the new globals posted to every frame |
| Parent.Host.Announce | src/parent.ts:121-133 | posts the connected reply, then the flushed queue, then the subscriber event, in that order; the queue ends empty |
| Parent.Host.OnConnect | src/parent.ts:110-137 | the joining id is appended; with a loaded frame the reply (reqId echoed, origin, current globals) is announced at once; otherwise exactly that reply is deferred under the fixed key, replacing an earlier one, and nothing is posted |
| Parent.Host.DeregisterKey | src/parent.ts:207-209 | removes the key; a call's promise is rejected with its message; anything else settles nothing |
| Parent.Host.TimerFires | src/rpc.ts:38-40 | an expiry rejects a pending call and settles nothing else; a deferred connected reply whose frame never loaded is dropped without a post |
| Parent.Host.Resolve | src/parent.ts:143-182 | an unknown key changes nothing and is reported not found; a known key is removed and reports `undefined`; a call settles with the payload; a pong ends the wait; a deferred reply is announced; a relay posts the payload to every frame as a response under the caller's reqId and settles nothing |
| Parent.Host.Continue | src/rpc.ts:76-77 | running a taken entry's continuation leaves the registry as it is: a call's promise fulfils with the payload; a pong wait changes nothing more; a deferred reply is announced and the queue emptied; a relay posts the payload to every frame under the caller's reqId |
| Parent.Host.PingRound | src/parent.ts:200-228 | nothing without subscribers; otherwise each subscriber's pong key is registered and each gets a ping with its id as reqId, in subscriber order |
| Parent.Host.PingOne | src/parent.ts:206-225 | one subscriber's share of a round: its pong registration, then its ping to every frame |
| Parent.Host.PingNext | src/parent.ts:206-225 | pinging the next subscriber extends a round that covers the first i subscribers to one that covers the first i+1 |
| Parent.Host.AddFrame | src/parent.ts:334-350 | the frame is appended with its load listener attached |
| Parent.Host.OnLoad | src/parent.ts:340-348 | one-shot: the first load removes the fixed key and nothing else from the registry, sets the loaded flag, posts the frame-loaded event, then announces a deferred reply if one waits; later loads change nothing |
| Parent.Host.FirstLoad | src/parent.ts:340-343 | the first load detaches the listener, sets the flag and posts the frame-loaded event with the frame's payload; the registry is untouched |
| Parent.Host.OnEvent | src/parent.ts:105-198 | a message without data or for another session changes nothing; a connect admits its sender, then announces the connected reply (echoing its reqId) with the flushed queue and the subscriber event when a frame has loaded, and otherwise defers exactly that reply under the fixed key; any other message from a non-subscriber changes nothing; a subscriber's envelope has exactly `Route`'s effect |
| Parent.Host.Route | src/parent.ts:143-197 | a pong resolves exactly its pong key; an exposed function's answer is posted to every frame echoing reqId, or nothing if it throws; a plain value gets nothing; an unknown name is forwarded to every frame under the fresh reqId and awaited as a call; a response resolves exactly its reqId, settling a pending call with the payload; an emit is relayed to every frame and dispatched; ping, update-globals, connected and the reduced emit change nothing |
| Parent.Host.RouteResolve | src/parent.ts:143-182 | a pong or a response has the effect `Route` states for it |
| Parent.Host.RouteCall | src/parent.ts:151-174 | a call has the effect `Route` states for it |
| Parent.Host.RouteEmit | src/parent.ts:184-197 | an emit has the effect `Route` states for it |
| Parent.Host.OnCall | src/parent.ts:151-174 | an exposed function answers with a response echoing reqId, or nothing if it throws; a plain value gets nothing; an unknown name is forwarded to every frame as a new call |
| Parent.Host.OnEmit | src/parent.ts:184-197 | relays the emit to every frame with all its fields, then dispatches it locally |
| Parent.Host.Forward | src/parent.ts:170-173 | the corrected forward: the call is posted to every frame under the fresh reqId, whose entry relays the answer under the caller's reqId; nothing is settled |
| Parent.ForwardedAnswerDropped | src/parent.ts:151-182 | as written, a forwarded call followed by the sibling's answer posts only the forwarded call, no response of any kind, and settles the host's own promise with the answer |
| Parent.ForwardedAnswerRelayed | src/parent.ts:170-173 | with the corrected forward, the same exchange posts the sibling's answer to every frame as a response under the caller's reqId and settles nothing |
| Subscriber.Sends | src/subscriber.ts:38-40 | one post per envelope to the parent window with the given origin |
| Subscriber.Peer.constructor | src/subscriber.ts:120-149 | disconnected with origin '*'; the connect continuation is registered with "Could not connect" on expiry; the one post is the connect request carrying the peer's id |
| Subscriber.Peer.FlushQueue | src/subscriber.ts:130 | queued envelopes are posted in order with the current origin, then the queue is empty |
| Subscriber.Peer.Dispatch | src/subscriber.ts:115 | `events.handle` is one bus dispatch |
| Subscriber.Peer.CompleteHandshake | src/subscriber.ts:126-133 | connected, props stored, the connected event dispatched, the queue flushed and the connect promise fulfilled with true, in that order |
| Subscriber.Peer.Resolve | src/subscriber.ts:101-107 | an unknown key changes nothing and is reported not found; a known key is removed and reports `undefined`; a call settles with the payload; the connect continuation completes the handshake |
| Subscriber.Peer.TimerFires | src/subscriber.ts:134-136 | an expiry rejects the connect with "Could not connect" or a call with its message |
| Subscriber.Peer.OnEvent | src/subscriber.ts:42-118 | a foreign session is ignored; a connected reply records its origin and resolves exactly its reqId even while disconnected: on the connect key the peer becomes connected, stores the props, dispatches the connected event, flushes its queue with the new origin and settles the connect with true; on a call's key it fulfils that call; an unknown key changes nothing else; everything else is ignored while disconnected; once connected, any other envelope has exactly `Route`'s effect |
| Subscriber.Peer.Route | src/subscriber.ts:62-117 | once connected: a ping for this peer gets a pong with its id, others nothing; an exposed function's answer is posted echoing reqId and tagged with the peer's id, and a throw or any other name gets nothing; a response resolves exactly its reqId and settles a pending call with the payload; update-globals replaces the props; an emit is dispatched; connect and pong change nothing |
| Subscriber.Peer.RouteInbound | src/subscriber.ts:101-117 | a response or an emit has the effect `Route` states for it |
| Subscriber.Peer.OnCall | src/subscriber.ts:77-99 | an exposed function answers with a response echoing reqId and tagged with the peer's id; a throw or any other name gives nothing |
| Subscriber.Peer.Call | src/subscriber.ts:151-177 | registers the reqId with "No reponse <method>" on expiry; queues while disconnected and posts with origin '*' otherwise; the call carries the peer's id |
| Subscriber.Peer.On | src/subscriber.ts:179-188 | appends a plain listener; when the name is the connected tag and the peer is connected, dispatches it at once with an empty record |
| Subscriber.Peer.RemoveListener | src/subscriber.ts:190-192 | drops every listener of the event; the empty name clears the bus |
| Subscriber.Peer.Emit | src/subscriber.ts:194-212 | queues the emit while disconnected and posts it with the current origin otherwise; it carries the peer's id |
| Subscriber.Peer.MergeAvailable | src/subscriber.ts:214-219 | calling the closure merges right-biased into the capability map and posts nothing |
| Publisher.ParseGlobalsOrEmpty | src/publisher.ts:25-31 | an absent capability map gives no globals; otherwise its non-function entries |
| Publisher.FrameHost.constructor | src/publisher.ts:73-90 | no subscribers, frame not loaded, globals parsed from `available` or empty |
| Publisher.FrameHost.Send | src/publisher.ts:117 | one post to the frame with the given origin |
| Publisher.FrameHost.Resolve | src/publisher.ts:134-176 | an unknown key changes nothing and is reported not found; a known key is removed and reports `undefined`; a call settles with the payload; a pong ends the wait; a deferred reply is posted to the frame |
| Publisher.FrameHost.Continue | src/rpc.ts:76-77 | running a taken entry's continuation leaves the registry as it is: a call's promise fulfils with the payload; a pong wait changes nothing more; a deferred reply is posted to the frame |
| Publisher.FrameHost.Load | src/publisher.ts:92-98 | every load sets the flag and resolves the fixed key: a deferred reply is posted, and an absent key posts nothing |
| Publisher.FrameHost.TimerFires | src/publisher.ts:236-238 | an expiry rejects a pending call and settles nothing else |
| Publisher.FrameHost.OnEvent | src/publisher.ts:100-191 | a foreign session changes nothing; a connect admits its sender, then posts the connected reply, without origin, at once if the frame has loaded and otherwise defers exactly that reply under the fixed key; a non-subscriber's message changes nothing; a subscriber's envelope has exactly `Route`'s effect |
| Publisher.FrameHost.Route | src/publisher.ts:134-190 | a pong resolves exactly its pong key; a call is answered with origin '*' or gets nothing, as `OnCall` says; a response resolves exactly its reqId, settling a pending call with the payload, posting a deferred reply to the frame, and settling nothing for a pong wait; an emit is re-posted to the frame with all its fields and not dispatched; ping, update-globals, connected and the reduced emit change nothing |
| Publisher.FrameHost.RouteResolve | src/publisher.ts:134-176 | a pong or a response has the effect `Route` states for it |
| Publisher.FrameHost.OnConnect | src/publisher.ts:105-128 | the joining id is appended; the connected reply, without origin, is posted at once if the frame has loaded and otherwise deferred under the fixed key |
| Publisher.FrameHost.OnCall | src/publisher.ts:144-166 | an exposed function answers with a response echoing reqId, posted with origin '*'; a throw, any other name or an absent map gives nothing; nothing is forwarded |
| Publisher.FrameHost.PingRound | src/publisher.ts:193-221 | nothing without subscribers; otherwise each subscriber's pong key is registered and the frame gets a ping per subscriber, with its id as reqId |
| Publisher.FrameHost.FrameSends | src/publisher.ts:218 | one post to the frame, with its origin, per envelope |
| Publisher.FrameHost.Call | src/publisher.ts:227-251 | registers the reqId with "No reponse <method>" on expiry and posts the call at once; there is no queue |
| Publisher.FrameHost.AddAvailable | src/publisher.ts:253-268 | right-biased merge (onto nothing if absent), globals recomputed, update-globals posted to the frame |

## Findings

| source | as written | input that shows it | evidently intended | confidence | as-written member | corrected member |
|---|---|---|---|---|---|---|
| src/parent.ts:170-173 | an unknown call is forwarded with a new `call` whose promise the host discards, so the sibling's answer settles the host's own promise and no response reaches the caller | a subscriber's call of a name the host lacks, then the sibling's response to the forwarded reqId | the caller gets the sibling's answer, as the test "iframe should be able to call fn of another iframe and get response" (src/index.test.ts:686-753) expects | not executed; high | Parent.ForwardedAnswerDropped | Parent.Host.Forward, with Parent.ForwardedAnswerRelayed |

The routers follow the code: `Parent.Host.OnEvent` and `OnCall` forward
with a plain call reply. The corrected forward registers a `Relay`
continuation instead. `Resolve`, `Continue` and `Route` carry it through, so
`Parent.ForwardedAnswerRelayed` runs the corrected forward and then the
real `OnEvent` on the sibling's response.

## Where the model reads the code

The model follows the code in each of these cases.

- **Flush after a throw.** `flush` clears the queue only after `forEach`
  returns (src/queue-handler.ts:11-12). If the sink throws, the exception
  escapes first: the rest is not delivered and the queue is kept
  (`QueueHandler.Queue.Flush`).
- **Event bus names.** The routers call `events.register`, `events.handle`
  and `events.deregister`. The object `createEvents` returns has only
  `addEventListener`, `removeEventListener`, `dispatchEvent` and
  `removeAllListeners` (src/events.ts:55-60). As written, each of these
  calls therefore throws a `TypeError`. The model reads them as
  `AddEventListener(…, once = false)`, `DispatchEvent` and
  `RemoveAllListeners(key)`; that mapping is an interpretation.
- **The peer's `on`.** It compares the event name with the connected
  *message tag*, not with the connected event (src/subscriber.ts:185). The
  constants module that holds both strings is not part of this model, and
  the comparison is modelled as written.
- **The peer's `addAvailable`.** It only returns a closure
  (src/subscriber.ts:214-219), so calling it changes nothing. The closure's
  own effect is `Subscriber.Peer.MergeAvailable`.
- **No `once` on the peer.** The object the peer returns has `call`, `on`,
  `removeListener`, `emit` and `addAvailable` (src/subscriber.ts:224-230),
  and its `on` has no `once` option. Only the bus supports `once`.

## Left out

- DOM work is not modelled: `_setUpIframe`, `render`, element attributes,
  containers and `new URL(src).origin`. A frame's origin is an opaque string.
- The transport is not modelled. `iframe?.contentWindow?.postMessage` is
  always an outbox append; a frame without a window, a post that throws, and
  structured cloning are not modelled.
- Timing is not modelled. The 1000 ms registry timeout, the 40 000 ms ping
  interval and the extra 1000 ms pong timer are steps that can happen at any
  time. That extra timer is not state: its firing is `DeregisterKey` of the
  pong key, and its cancellation by the pong is not recorded.
- Asynchrony is not modelled. `await handler(...)` and `await onHandle(...)`
  complete within the step that starts them. Interleavings of other messages
  with a pending handler are not modelled.
- Re-entrant listeners are not modelled. Listeners and user functions are
  opaque and never call back into a role. So the bus's snapshot behaviour
  against additions made during a dispatch is not exercised, and neither is
  a listener that calls `call` during the connected dispatch.
- `Rpc.Registry.Deregister`: the source runs `onDeregister` before deleting
  the entry. The model returns the continuation and the role runs it after
  the deletion. No `onDeregister` in these roles touches the registry, so
  the order is not observable.
- `Rpc.Registry.Handle`: the outcome of `onHandle` is a parameter. The
  registry never runs the continuation itself; each role passes the outcome
  its continuations have, which is always a normal return of `undefined`.
- `getId` is not modelled. Ids are parameters; nothing requires them to be
  fresh, so the contracts state the map updates that also cover a collision.
- The constants module is not part of this model. `OnSubscriberEvent`,
  `OnFrameLoadedEvent` and `OnConnectedEvent` are stand-in distinct strings.
- The call-queue module is not part of this model. The peer's queue is
  assumed to behave as `src/queue-handler.ts`.
- `Publisher.FrameHost.OnCall`: with no capability map, `Object.keys` throws
  inside the asynchronous handler. That is modelled as "no answer"; the
  unhandled rejection itself is not modelled.
- `Publisher.FrameHost.Load`: the load listener is never removed, so loads
  may repeat. The multi-frame host's listener is one-shot (`loadListening`).
- `Parent.Host.Route`, `Publisher.FrameHost.Route`: a pong's effect beyond
  the removed key (the cancelled extra timer) is not stated, because that
  timer is not state.
- `Parent.Host.OnEvent`, `Publisher.FrameHost.OnEvent`: a connect's
  `joining` is a string, and any other envelope without a `subscriberId` is
  dropped. The code pushes the connect payload unchecked
  (src/parent.ts:111, src/publisher.ts:106-107). A connect without a
  payload therefore admits `undefined`, and the gate
  `subscribers.includes(event.data['subscriberId'])` (src/parent.ts:139,
  src/publisher.ts:130) then lets every envelope without a `subscriberId`
  through. The model does not capture that path.
- `Parent.Host.OnLoad`: its contract states the posts, the queue, the flag
  and the registry. It does not state the two dispatches' effect on the
  event bus, which `EmitWithNoQueue` and `Announce` state.
- Payloads are a small value datatype. A pong's `''` payload is `Str("")`,
  and `{}` is `Record(map[])`.
- `src/index.test.ts`, `vite.config.ts` and `src/types/types.ts` are not
  modelled. The last one contributes only the
  property-versus-function distinction of `Member`.
