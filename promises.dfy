/**
 * How the promises a role hands out settle: each `call` (and a peer's
 * connect) either resolves with a value or is rejected with an error message.
 */
module Promises {
  import opened Values

  /** The settlement of the promise correlated by `reqId`. */
  datatype Settlement = Fulfilled(reqId: string, value: Value) | Rejected(reqId: string, reason: string)

  /** The rejection of a `call` whose answer never came (the source spells it "reponse"). */
  function NoResponse(methodName: string): (reason: string)
    ensures |reason| == 11 + |methodName| && reason[..11] == "No reponse " && reason[11..] == methodName
  {
    "No reponse " + methodName
  }

  /** The rejection of a peer's connect that no host answered. */
  const CouldNotConnect := "Could not connect"
}
