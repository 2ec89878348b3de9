/** Gas meters (`store/types/gas.go`): with a limit or without one. */
module GasMeters {
  const MAX_UINT64: nat := 0xFFFF_FFFF_FFFF_FFFF

  datatype Meter = Basic(limit: nat, consumed: nat) | Infinite(consumed: nat)

  predicate IsOutOfGas(g: Meter) {
    g.Basic? && g.consumed >= g.limit
  }

  function ConsumedToLimit(g: Meter): nat {
    if g.Basic? && g.consumed > g.limit then g.limit else g.consumed
  }

  /** Whether consuming `amount` panics. */
  predicate Overdraws(g: Meter, amount: nat) {
    g.consumed + amount > MAX_UINT64 || (g.Basic? && g.consumed + amount > g.limit)
  }

  /** The meter after consuming `amount`, whether that panics or not. */
  function Charged(g: Meter, amount: nat): Meter {
    if g.consumed + amount <= MAX_UINT64 then g.(consumed := g.consumed + amount)
    else g.(consumed := if g.Basic? then MAX_UINT64 else 0)
  }
}
