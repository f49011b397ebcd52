/**
 * Payloads and capability maps shared by every role.
 *
 * Payloads are structured-clone values; a role's capability map ("available")
 * maps a name either to a plain value (a shared property, "global") or to a
 * callable, which the model keeps opaque.
 */
module Values {
  import opened Wrappers

  /** A payload carried by a message or passed to a handler. */
  datatype Value =
    | Undefined
    | Bool(b: bool)
    | Num(n: int)
    | Str(s: string)
    | Record(fields: map<string, Value>)
    | Opaque(ref: nat)

  /** Identity of a user function exposed in a capability map. */
  type FnId = nat

  /** Identity of an event listener function. */
  type HandlerId = nat

  /** An entry of a capability map: `typeof value === 'function'` or not. */
  datatype Member = Prop(value: Value) | Fn(fn: FnId)

  type Available = map<string, Member>

  /**
   * The behaviour of the foreign code the roles call: what a user function
   * returns for a payload, whether it throws, and whether an event listener
   * throws.  The model never looks inside these.
   */
  datatype Foreign = Foreign(
    result: (FnId, Value) -> Value,
    fails: (FnId, Value) -> bool,
    listenerFails: (HandlerId, Value) -> bool)

  /** `_parseGlobals`: the non-callable entries of a capability map. */
  function ParseGlobals(available: Available): (globals: map<string, Value>)
    ensures forall k :: k in globals <==> k in available && available[k].Prop?
    ensures forall k :: k in globals ==> globals[k] == available[k].value
  {
    map k | k in available && available[k].Prop? :: available[k].value
  }

  /** `{...available, ...added}`: a right-biased merge that never drops a name. */
  function Merge(available: Available, added: Available): (merged: Available)
    ensures merged.Keys == available.Keys + added.Keys
    ensures forall k :: k in added ==> merged[k] == added[k]
    ensures forall k :: k in available && k !in added ==> merged[k] == available[k]
  {
    available + added
  }

  /** Looks up a callable: `Some(f)` exactly when `name` names a function. */
  function Callable(available: Available, name: string): (f: Option<FnId>)
    ensures f.Some? <==> name in available && available[name].Fn?
    ensures f.Some? ==> available[name] == Fn(f.value)
  {
    if name in available && available[name].Fn? then Some(available[name].fn) else None
  }

  /** Merging keeps every earlier shared property that is not overridden. */
  lemma MergeKeepsGlobals(available: Available, added: Available, k: string)
    requires k in ParseGlobals(available) && k !in added
    ensures k in ParseGlobals(Merge(available, added))
    ensures ParseGlobals(Merge(available, added))[k] == ParseGlobals(available)[k]
  {
  }
}
