/**
 * The correlation registry: pending continuations by key, each with an
 * auto-expiry timer.
 *
 * The registry itself never runs a continuation; `Handle` and `Deregister`
 * hand the continuation that the source would invoke back to the owning role,
 * which runs it.  A timer is a handle drawn from a counter; a timer firing is
 * the explicit step `Expire`.
 */
module Rpc {
  import opened Wrappers
  import opened Values

  /** `AUTO_DEREGISTER_TIMEOUT_MS`: the lifetime of every registration. */
  const AutoDeregisterTimeoutMs := 1000

  /** A registration: what to run on resolution and, optionally, on expiry. */
  datatype Entry<H, D> = Entry(onHandle: H, onDeregister: Option<D>)

  /** How invoking `onHandle` ended: it returned a value or threw (with or without a message). */
  datatype Outcome = Returned(value: Value) | Threw(message: Option<string>)

  /** An `RpcResponse`: `{result, key}` or `{error}`. */
  datatype Response = Resolved(result: Value, key: string) | Failed(error: string)

  /** The error `handle` reports for a key nobody registered. */
  function NotFound(key: string): (error: string)
    ensures |error| == |key| + 20 && error[8..8 + |key|] == key
    ensures error[..8] == "Method \"" && error[8 + |key|..] == "\" not found."
  {
    "Method \"" + key + "\" not found."
  }

  /** What `handle` reports once `onHandle` has run. */
  function Settle(key: string, outcome: Outcome): (r: Response)
    ensures r.Resolved? <==> outcome.Returned?
    ensures outcome.Returned? ==> r.result == outcome.value && r.key == key
    ensures outcome.Threw? ==> r.error == outcome.message.GetOr("Unknown error")
  {
    match outcome
    case Returned(v) => Resolved(v, key)
    case Threw(m) => Failed(m.GetOr("Unknown error"))
  }

  class Registry<H, D> {
    /** `methods`: the pending registration under each key. */
    var methods: map<string, Entry<H, D>>
    /** `timers`: the handle of the live expiry timer under each key. */
    var timers: map<string, nat>
    /** The next timer handle `setTimeout` returns; all live handles are below it. */
    var nextTimer: nat

    /** No orphaned timers, no registration without a timer, no two keys sharing a timer. */
    ghost predicate Valid()
      reads this
    {
      && timers.Keys == methods.Keys
      && (forall k :: k in timers ==> timers[k] < nextTimer)
      && (forall k1, k2 :: k1 in timers && k2 in timers && k1 != k2 ==> timers[k1] != timers[k2])
    }

    constructor ()
      ensures Valid() && methods == map[] && timers == map[] && nextTimer == 0
    {
      methods, timers, nextTimer := map[], map[], 0;
    }

    /** `clearTimer`: cancels and forgets the timer under `key`, if any. */
    method ClearTimer(key: string)
      modifies this
      ensures timers == old(timers) - {key}
      ensures methods == old(methods) && nextTimer == old(nextTimer)
    {
      if key in timers {
        timers := timers - {key};
      }
    }

    /** `setAutoDeregisterTimer`: replaces the timer under `key` by a fresh one. */
    method SetAutoDeregisterTimer(key: string)
      modifies this
      ensures timers == old(timers)[key := old(nextTimer)]
      ensures nextTimer == old(nextTimer) + 1 && methods == old(methods)
    {
      ClearTimer(key);
      timers := timers[key := nextTimer];
      nextTimer := nextTimer + 1;
    }

    /**
     * `register`: stores `entry` under `key`, replacing any earlier entry, and
     * restarts the key's timer; the earlier timer is no longer live.
     */
    method Register(key: string, entry: Entry<H, D>)
      requires Valid()
      modifies this
      ensures Valid()
      ensures methods == old(methods)[key := entry]
      ensures timers == old(timers)[key := old(nextTimer)] && nextTimer == old(nextTimer) + 1
      ensures key in old(timers) ==> old(timers)[key] !in timers.Values
    {
      methods := methods[key := entry];
      SetAutoDeregisterTimer(key);
      if key in old(timers) {
        var stale := old(timers)[key];
        forall k | k in timers
          ensures timers[k] != stale
        {
          if k != key {
            assert old(timers)[k] != stale;
          }
        }
      }
    }

    /**
     * `deregister`: reports whether `key` was registered, removes its entry
     * and timer, and returns the `onDeregister` continuation to run, if the
     * entry had one.  Whatever that continuation throws is swallowed by the
     * caller, so nothing here depends on it.
     */
    method Deregister(key: string) returns (existed: bool, invoke: Option<D>)
      requires Valid()
      modifies this
      ensures Valid()
      ensures existed == (key in old(methods))
      ensures invoke == (if key in old(methods) then old(methods)[key].onDeregister else None)
      ensures methods == old(methods) - {key} && timers == old(timers) - {key}
      ensures nextTimer == old(nextTimer)
    {
      invoke := if key in methods then methods[key].onDeregister else None;
      existed := key in methods;
      methods := methods - {key};
      ClearTimer(key);
    }

    /**
     * A timer firing: exactly `deregister(key)`.  Only a live timer can fire,
     * and a live timer always belongs to a registered key.
     */
    method Expire(key: string) returns (existed: bool, invoke: Option<D>)
      requires Valid() && key in timers
      modifies this
      ensures Valid()
      ensures existed && invoke == old(methods)[key].onDeregister
      ensures methods == old(methods) - {key} && timers == old(timers) - {key}
      ensures nextTimer == old(nextTimer)
    {
      existed, invoke := Deregister(key);
    }

    /**
     * `handle({key, payload})`.  When `key` is present, its timer is cleared and
     * the entry deleted BEFORE the continuation runs; the entry is returned so
     * that the caller invokes its `onHandle`, and `outcome` is how that
     * invocation ends.  The report is `{error: 'Method "<key>" not found.'}`
     * for an unknown key, which changes nothing, and otherwise what the
     * outcome settles to.
     */
    method Handle(key: string, outcome: Outcome) returns (taken: Option<Entry<H, D>>, report: Response)
      requires Valid()
      modifies this
      ensures Valid()
      ensures taken == (if key in old(methods) then Some(old(methods)[key]) else None)
      ensures key !in old(methods) ==> report == Failed(NotFound(key)) && unchanged(this)
      ensures key in old(methods) ==> report == Settle(key, outcome)
      ensures methods == old(methods) - {key} && timers == old(timers) - {key}
      ensures nextTimer == old(nextTimer)
    {
      if key !in methods {
        return None, Failed(NotFound(key));
      }
      var entry := methods[key];
      ClearTimer(key);
      methods := methods - {key};
      taken := Some(entry);
      report := Settle(key, outcome);
    }
  }

  /**
   * Correlation exclusivity: once `handle` has taken a key, a later
   * `deregister` (or the expiry of a stale timer) finds nothing, runs no
   * `onDeregister`, and leaves the registry as it is.
   */
  method HandleThenDeregister<H, D>(r: Registry<H, D>, key: string, entry: Entry<H, D>, outcome: Outcome)
    returns (taken: Option<Entry<H, D>>, existed: bool, invoke: Option<D>)
    requires r.Valid() && key in r.methods && r.methods[key] == entry
    modifies r
    ensures taken == Some(entry) && !existed && invoke.None?
    ensures key !in r.methods && key !in r.timers
  {
    var report;
    taken, report := r.Handle(key, outcome);
    existed, invoke := r.Deregister(key);
  }

  /**
   * A continuation that registers its own key again while it runs is not
   * evicted by the resolution that started it.
   */
  method HandleThenReregister<H, D>(r: Registry<H, D>, key: string, again: Entry<H, D>, outcome: Outcome)
    returns (taken: Option<Entry<H, D>>)
    requires r.Valid() && key in r.methods
    modifies r
    ensures taken.Some? && key in r.methods && r.methods[key] == again && key in r.timers
  {
    var report;
    taken, report := r.Handle(key, outcome);
    r.Register(key, again);
  }

  /**
   * At most one resolution per key: the first `handle` of a registered key
   * reports how its continuation ended, and a second `handle` of the same key
   * finds nothing and reports it as not found.
   */
  method HandleTwice<H, D>(r: Registry<H, D>, key: string, first: Outcome, second: Outcome)
    returns (report1: Response, report2: Response)
    requires r.Valid() && key in r.methods
    modifies r
    ensures report1 == Settle(key, first) && report2 == Failed(NotFound(key))
    ensures key !in r.methods
  {
    var taken;
    taken, report1 := r.Handle(key, first);
    taken, report2 := r.Handle(key, second);
  }
}
