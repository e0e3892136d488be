/** The promise returned by every operation of the API, reduced to the
    one cell it settles: pending until the first resolve or reject, which
    then wins over every later one. */
module Promises {

  /** A value the coordination server sends back (registration data, a
      pairing code, the list of paired portals); opaque to the client. */
  type Data(==)

  /** What a promise resolves with: `undefined` or a server value. */
  datatype Reply = Undefined | Value(data: Data)

  datatype Outcome = Pending | Resolved(value: Reply) | Rejected(message: string)

  /** Calling `resolve` or `reject` on a promise in state `o`: only a
      pending promise takes the new outcome. */
  function Settle(o: Outcome, next: Outcome): Outcome
  {
    if o.Pending? then next else o
  }

  /** Once a promise has settled, no later settlement changes it. */
  lemma FirstSettlementWins(o: Outcome, first: Outcome, later: Outcome)
    requires !first.Pending?
    ensures !Settle(o, first).Pending?
    ensures Settle(Settle(o, first), later) == Settle(o, first)
    ensures !o.Pending? ==> Settle(o, first) == o
  {
  }
}
