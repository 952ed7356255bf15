/** Shared vocabulary of the on-chain contracts and the front end. */
module Common {

  /** A value that may be absent (a JavaScript `null` / `undefined`). */
  datatype Option<+T> = None | Some(value: T)

  /** An account address; the contracts only compare addresses for equality. */
  type Address = nat

  /** Seconds in one day, the unit the form converts to and the ledger bounds durations by. */
  const SecondsPerDay: nat := 86400

  function Min(a: int, b: int): int { if a <= b then a else b }
}
