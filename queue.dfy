/**
 * The outbound queue: envelopes held back until there is someone to send them
 * to, handed to a sink in insertion order and then dropped.
 */
module QueueHandler {
  import opened Wrappers

  /**
   * The position of the first element of `s` on which the sink throws, or
   * `None` when it accepts them all.
   */
  function FirstFailing<T>(s: seq<T>, fails: T -> bool): (r: Option<nat>)
    ensures r.None? <==> forall j :: 0 <= j < |s| ==> !fails(s[j])
    ensures r.Some? ==> r.value < |s| && fails(s[r.value])
    ensures r.Some? ==> forall j :: 0 <= j < r.value ==> !fails(s[j])
  {
    if s == [] then None
    else if fails(s[0]) then Some(0)
    else
      match FirstFailing(s[1..], fails)
      case None => (assert forall j :: 1 <= j < |s| ==> s[j] == s[1..][j - 1]; None)
      case Some(k) => (assert forall j :: 1 <= j < k + 1 ==> s[j] == s[1..][j - 1]; Some(k + 1))
  }

  /** What a flush hands to the sink: everything, or everything up to and including the throwing element. */
  function Delivered<T>(s: seq<T>, fails: T -> bool): (d: seq<T>)
    ensures FirstFailing(s, fails).None? ==> d == s
    ensures FirstFailing(s, fails).Some? ==> d == s[..FirstFailing(s, fails).value + 1]
  {
    match FirstFailing(s, fails)
    case None => s
    case Some(k) => s[..k + 1]
  }

  /** A delivered element is handed over unmodified, in its queue position, exactly once. */
  lemma DeliveredInOrder<T>(s: seq<T>, fails: T -> bool)
    ensures |Delivered(s, fails)| <= |s|
    ensures forall j :: 0 <= j < |Delivered(s, fails)| ==> Delivered(s, fails)[j] == s[j]
    ensures FirstFailing(s, fails).None? <==> |Delivered(s, fails)| == |s| && (forall j :: 0 <= j < |s| ==> !fails(s[j]))
  {
  }

  class Queue<T> {
    /** `callQueue`: the held envelopes, oldest first. */
    var items: seq<T>

    constructor ()
      ensures items == []
    {
      items := [];
    }

    /** `add`: appends `x` at the tail. */
    method Add(x: T)
      modifies this
      ensures items == old(items) + [x]
    {
      items := items + [x];
    }

    /**
     * `flush(callback)`: hands every held element to the sink in order, then
     * empties the queue.  `fails` says on which element the sink throws; the
     * exception escapes the loop (`threw`) before the reset, so the rest is not
     * handed over and the queue keeps all its elements.
     */
    method Flush(fails: T -> bool) returns (handed: seq<T>, threw: bool)
      modifies this
      ensures handed == Delivered(old(items), fails)
      ensures threw <==> FirstFailing(old(items), fails).Some?
      ensures items == (if threw then old(items) else [])
    {
      handed := [];
      var i := 0;
      while i < |items|
        invariant 0 <= i <= |items|
        invariant items == old(items)
        invariant handed == items[..i]
        invariant forall j :: 0 <= j < i ==> !fails(items[j])
      {
        handed := handed + [items[i]];
        if fails(items[i]) {
          threw := true;
          return;
        }
        i := i + 1;
      }
      assert handed == items;
      threw := false;
      items := [];
    }
  }

  /**
   * With a sink that never throws, two consecutive flushes deliver each
   * element once: the second flush finds the queue empty and hands nothing.
   */
  method FlushTwice<T>(q: Queue<T>) returns (first: seq<T>, second: seq<T>)
    modifies q
    ensures first == old(q.items) && second == [] && q.items == []
  {
    var threw;
    first, threw := q.Flush(_ => false);
    second, threw := q.Flush(_ => false);
  }
}
