/**
 * The event bus: an ordered list of `{handler, once}` listeners per event
 * name.  Handlers are opaque ids; calling one is recorded in `log`, together
 * with whether it threw (the bus swallows that).
 */
module Events {

  import opened Wrappers

  datatype Listener<H> = Listener(handler: H, once: bool)

  /** One call of a handler by `dispatchEvent`. */
  datatype Invocation<H, P> = Invocation(key: string, handler: H, payload: P, threw: bool)

  /**
   * The listeners of `s` whose handler is not in `hs`, in their original
   * order (`existing.filter(...)`, here for a set of handlers at once).
   */
  function RemoveAll<H>(s: seq<Listener<H>>, hs: set<H>): (r: seq<Listener<H>>)
    ensures |r| <= |s|
    ensures forall j :: 0 <= j < |r| ==> r[j].handler !in hs
    ensures r == s <==> forall j :: 0 <= j < |s| ==> s[j].handler !in hs
  {
    if s == [] then []
    else RemoveAll(s[..|s| - 1], hs) + (if s[|s| - 1].handler in hs then [] else [s[|s| - 1]])
  }

  /** Filtering keeps exactly the listeners whose handler is not in `hs`. */
  lemma {:induction false} RemoveAllMembers<H>(s: seq<Listener<H>>, hs: set<H>)
    ensures forall j :: 0 <= j < |RemoveAll(s, hs)| ==> RemoveAll(s, hs)[j] in s && RemoveAll(s, hs)[j].handler !in hs
    ensures forall j :: 0 <= j < |s| && s[j].handler !in hs ==> s[j] in RemoveAll(s, hs)
  {
    if s != [] {
      var s' := s[..|s| - 1];
      RemoveAllMembers(s', hs);
      assert forall j :: 0 <= j < |s'| ==> s'[j] == s[j];
    }
  }

  /** Filtering distributes over concatenation, so it keeps the survivors in order. */
  lemma {:induction false} RemoveAllAppend<H>(a: seq<Listener<H>>, b: seq<Listener<H>>, hs: set<H>)
    ensures RemoveAll(a + b, hs) == RemoveAll(a, hs) + RemoveAll(b, hs)
  {
    if b == [] {
      assert a + b == a;
    } else {
      var b' := b[..|b| - 1];
      assert (a + b)[..|a + b| - 1] == a + b';
      RemoveAllAppend(a, b', hs);
    }
  }

  /** Filtering twice is filtering once by both sets. */
  lemma {:induction false} RemoveAllTwice<H>(s: seq<Listener<H>>, a: set<H>, b: set<H>)
    ensures RemoveAll(RemoveAll(s, a), b) == RemoveAll(s, a + b)
  {
    if s != [] {
      var s' := s[..|s| - 1];
      var last := s[|s| - 1];
      RemoveAllTwice(s', a, b);
      var tail := if last.handler in a then [] else [last];
      RemoveAllAppend(RemoveAll(s', a), tail, b);
    }
  }

  /** A list none of whose handlers is in `hs` survives filtering unchanged. */
  lemma {:induction false} RemoveAllNone<H>(s: seq<Listener<H>>, hs: set<H>)
    requires forall j :: 0 <= j < |s| ==> s[j].handler !in hs
    ensures RemoveAll(s, hs) == s
  {
    if s != [] {
      RemoveAllNone(s[..|s| - 1], hs);
    }
  }

  /** Removing a handler right after adding it leaves the list as filtering would have without the addition. */
  lemma RemoveAfterAdd<H>(s: seq<Listener<H>>, h: H, once: bool)
    ensures RemoveAll(s + [Listener(h, once)], {h}) == RemoveAll(s, {h})
  {
    RemoveAllAppend(s, [Listener(h, once)], {h});
    assert [Listener(h, once)][..0] == [];
  }

  /** The handlers of the `once` listeners among the first `n` listeners of `s`. */
  function OnceIn<H>(s: seq<Listener<H>>, n: nat): set<H>
    requires n <= |s|
  {
    if n == 0 then {} else OnceIn(s, n - 1) + (if s[n - 1].once then {s[n - 1].handler} else {})
  }

  /** The handlers of the `once` listeners of `s`. */
  function OnceHandlers<H>(s: seq<Listener<H>>): set<H> {
    OnceIn(s, |s|)
  }

  /** The once-set holds the handler of each `once` listener and nothing else. */
  lemma {:induction false} OnceInMembers<H>(s: seq<Listener<H>>, n: nat)
    requires n <= |s|
    ensures forall j :: 0 <= j < n && s[j].once ==> s[j].handler in OnceIn(s, n)
    ensures forall h :: h in OnceIn(s, n) ==> exists j :: 0 <= j < n && s[j].once && s[j].handler == h
  {
    if n > 0 {
      OnceInMembers(s, n - 1);
    }
  }

  /** The calls the first `n` steps of a dispatch of snapshot `s` make, each told whether it threw. */
  function CallsIn<H, P>(key: string, s: seq<Listener<H>>, n: nat, payload: P, fails: (H, P) -> bool)
    : (r: seq<Invocation<H, P>>)
    requires n <= |s|
    ensures |r| == n
  {
    if n == 0 then []
    else CallsIn(key, s, n - 1, payload, fails) + [Invocation(key, s[n - 1].handler, payload, fails(s[n - 1].handler, payload))]
  }

  /** The calls one dispatch of snapshot `s` makes. */
  function Calls<H, P>(key: string, s: seq<Listener<H>>, payload: P, fails: (H, P) -> bool): seq<Invocation<H, P>> {
    CallsIn(key, s, |s|, payload, fails)
  }

  /** The j-th call of a dispatch is the j-th snapshot entry, whether or not earlier ones threw. */
  lemma {:induction false} CallsInAt<H, P>(key: string, s: seq<Listener<H>>, n: nat, payload: P, fails: (H, P) -> bool)
    requires n <= |s|
    ensures forall j :: 0 <= j < n ==>
      CallsIn(key, s, n, payload, fails)[j] == Invocation(key, s[j].handler, payload, fails(s[j].handler, payload))
  {
    if n > 0 {
      CallsInAt(key, s, n - 1, payload, fails);
    }
  }

  /** The listeners registered under `key`, empty when there are none. */
  function ListenersOf<H>(m: map<string, seq<Listener<H>>>, key: string): seq<Listener<H>> {
    if key in m then m[key] else []
  }

  /** The listeners a dispatch of a snapshot `s` leaves: every `once` handler of it is gone. */
  function AfterDispatch<H(==)>(s: seq<Listener<H>>): (r: seq<Listener<H>>)
    ensures |r| <= |s|
    ensures forall j :: 0 <= j < |r| ==> r[j] in s && !r[j].once
  {
    RemoveAllMembers(s, OnceHandlers(s));
    OnceInMembers(s, |s|);
    RemoveAll(s, OnceHandlers(s))
  }

  /**
   * Once-semantics: a handler registered with `once` in the snapshot of a
   * dispatch is not called by the next dispatch of the same event.
   */
  lemma OnceHandlerNotCalledAgain<H, P>(s: seq<Listener<H>>, key: string, h: H, payload: P, fails: (H, P) -> bool)
    requires h in OnceHandlers(s)
    ensures forall inv :: inv in Calls(key, AfterDispatch(s), payload, fails) ==> inv.handler != h
  {
    var rest := AfterDispatch(s);
    RemoveAllMembers(s, OnceHandlers(s));
    var calls := Calls(key, rest, payload, fails);
    CallsInAt(key, rest, |rest|, payload, fails);
    forall inv | inv in calls
      ensures inv.handler != h
    {
      var j :| 0 <= j < |calls| && calls[j] == inv;
      assert rest[j] in rest;
    }
  }

  /** `m` and `m'` agree on every name except `key`, where `m'` holds `s` (and has no entry if `s` is empty). */
  ghost predicate UpdatedAt<H>(m': map<string, seq<Listener<H>>>, m: map<string, seq<Listener<H>>>, key: string,
                               s: seq<Listener<H>>)
  {
    m' - {key} == m - {key} && ListenersOf(m', key) == s
  }

  /** Two updates at the same name compose into one. */
  lemma UpdatedAtTrans<H>(m: map<string, seq<Listener<H>>>, mid: map<string, seq<Listener<H>>>,
                          m': map<string, seq<Listener<H>>>, key: string, a: seq<Listener<H>>, b: seq<Listener<H>>)
    requires UpdatedAt(mid, m, key, a) && UpdatedAt(m', mid, key, b)
    ensures UpdatedAt(m', m, key, b)
  {
  }

  /** The bus state the dispatch loop keeps, carried across the call of `toCall[i]`. */
  lemma DispatchStep<H>(m: map<string, seq<Listener<H>>>, key: string, toCall: seq<Listener<H>>, i: nat,
                        before: map<string, seq<Listener<H>>>, after: map<string, seq<Listener<H>>>)
    requires i < |toCall|
    requires UpdatedAt(before, m, key, RemoveAll(toCall, OnceIn(toCall, i)))
    requires !toCall[i].once ==> after == before
    requires toCall[i].once ==> UpdatedAt(after, before, key, RemoveAll(ListenersOf(before, key), {toCall[i].handler}))
    ensures UpdatedAt(after, m, key, RemoveAll(toCall, OnceIn(toCall, i + 1)))
  {
    var hs := OnceIn(toCall, i);
    if toCall[i].once {
      RemoveAllTwice(toCall, hs, {toCall[i].handler});
      UpdatedAtTrans(m, before, after, key, RemoveAll(toCall, hs), RemoveAll(toCall, hs + {toCall[i].handler}));
    } else {
      assert OnceIn(toCall, i + 1) == hs;
    }
  }

  /** The log the dispatch loop keeps, carried across the call of `toCall[i]`. */
  lemma LogStep<H, P>(log0: seq<Invocation<H, P>>, key: string, toCall: seq<Listener<H>>, i: nat, payload: P,
                      fails: (H, P) -> bool, before: seq<Invocation<H, P>>, after: seq<Invocation<H, P>>)
    requires i < |toCall|
    requires before == log0 + CallsIn(key, toCall, i, payload, fails)
    requires after == before + [Invocation(key, toCall[i].handler, payload, fails(toCall[i].handler, payload))]
    ensures after == log0 + CallsIn(key, toCall, i + 1, payload, fails)
  {
  }

  /** The effect of one `dispatchEvent(key, payload)` on `bus`, from the state before it to the state after. */
  twostate predicate Dispatched<H, P>(bus: EventBus<H, P>, key: string, payload: P, fails: (H, P) -> bool)
    reads bus
  {
    && UpdatedAt(bus.events, old(bus.events), key, AfterDispatch(ListenersOf(old(bus.events), key)))
    && bus.log == old(bus.log) + Calls(key, ListenersOf(old(bus.events), key), payload, fails)
  }

  class EventBus<H(==), P> {
    /** `events`: the listeners of each event name, in registration order. */
    var events: map<string, seq<Listener<H>>>
    /** Every handler call made so far, in order. */
    var log: seq<Invocation<H, P>>

    /** No event name maps to an empty list. */
    ghost predicate Valid()
      reads this
    {
      forall k :: k in events ==> events[k] != []
    }

    constructor ()
      ensures Valid() && events == map[] && log == []
    {
      events, log := map[], [];
    }

    /** `addEventListener`: appends `{handler, once}` to the list of `key`. */
    method AddEventListener(key: string, handler: H, once: bool)
      requires Valid()
      modifies this
      ensures Valid()
      ensures UpdatedAt(events, old(events), key, ListenersOf(old(events), key) + [Listener(handler, once)])
      ensures log == old(log)
    {
      var existing := if key in events then events[key] else [];
      events := events[key := existing + [Listener(handler, once)]];
    }

    /**
     * `removeEventListener`: drops every listener of `key` whose handler is
     * `handler`, deletes `key` when none is left, and does nothing when `key`
     * has no listeners.
     */
    method RemoveEventListener(key: string, handler: H)
      requires Valid()
      modifies this
      ensures Valid()
      ensures key !in old(events) ==> events == old(events)
      ensures UpdatedAt(events, old(events), key, RemoveAll(ListenersOf(old(events), key), {handler}))
      ensures log == old(log)
    {
      if key !in events {
        return;
      }
      var filtered := RemoveAll(events[key], {handler});
      if |filtered| > 0 {
        events := events[key := filtered];
      } else {
        events := events - {key};
      }
    }

    /**
     * `dispatchEvent`: calls the listeners of the snapshot taken on entry, in
     * registration order, whether or not earlier ones throw, removing each
     * `once` handler after its call; an event without listeners is a no-op.
     */
    method DispatchEvent(key: string, payload: P, fails: (H, P) -> bool)
      requires Valid()
      modifies this
      ensures Valid()
      ensures key !in old(events) ==> events == old(events) && log == old(log)
      ensures UpdatedAt(events, old(events), key, AfterDispatch(ListenersOf(old(events), key)))
      ensures log == old(log) + Calls(key, ListenersOf(old(events), key), payload, fails)
    {
      if key !in events {
        return;
      }
      var toCall := events[key];
      var i := 0;
      RemoveAllNone(toCall, {});
      while i < |toCall|
        invariant 0 <= i <= |toCall|
        invariant Valid()
        invariant UpdatedAt(events, old(events), key, RemoveAll(toCall, OnceIn(toCall, i)))
        invariant log == old(log) + CallsIn(key, toCall, i, payload, fails)
      {
        var listener := toCall[i];
        ghost var before, logBefore := events, log;
        CallListener(key, listener, payload, fails);
        DispatchStep(old(events), key, toCall, i, before, events);
        LogStep(old(log), key, toCall, i, payload, fails, logBefore, log);
        i := i + 1;
      }
    }

    /**
     * One turn of the dispatch loop: calls the listener's handler, swallowing
     * whatever it throws, then removes the handler if the listener is `once`.
     */
    method CallListener(key: string, listener: Listener<H>, payload: P, fails: (H, P) -> bool)
      requires Valid()
      modifies this
      ensures Valid()
      ensures log == old(log) + [Invocation(key, listener.handler, payload, fails(listener.handler, payload))]
      ensures !listener.once ==> events == old(events)
      ensures listener.once ==> UpdatedAt(events, old(events), key, RemoveAll(ListenersOf(old(events), key), {listener.handler}))
    {
      var threw := fails(listener.handler, payload);
      log := log + [Invocation(key, listener.handler, payload, threw)];
      if listener.once {
        RemoveEventListener(key, listener.handler);
      }
    }

    /** `removeAllListeners(key?)`: drops `key`, or everything when `key` is absent or empty. */
    method RemoveAllListeners(key: Option<string>)
      requires Valid()
      modifies this
      ensures Valid()
      ensures key.Some? && key.value != "" ==> events == old(events) - {key.value}
      ensures key.None? || key.value == "" ==> events == map[]
      ensures log == old(log)
    {
      if key.Some? && key.value != "" {
        events := events - {key.value};
      } else {
        events := map[];
      }
    }
  }
}
