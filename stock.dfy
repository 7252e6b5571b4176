/**
 * A listed stock. Only the part the event scheduler touches is modelled:
 * identity, the two prices the constructor seeds, and the drift offset
 * ("shift", in percentage points) that market events add to and remove.
 */
module Stocks {

  class Stock {
    const code: string
    var price: real
    var lastPrice: real

    /** The band of the per-tick random move before any shift is applied. */
    const baseMinPct: real := -0.1
    const baseMaxPct: real := 0.3

    /** Net shift currently applied by events; zero for a new stock. */
    var shiftPct: real

    constructor (code: string, initialPrice: real)
      ensures this.code == code
      ensures price == initialPrice && lastPrice == initialPrice
      ensures shiftPct == 0.0
    {
      this.code := code;
      price := initialPrice;
      lastPrice := initialPrice;
      shiftPct := 0.0;
    }

    /** Adds `deltaPct` to the shift; prices are left alone until the next tick. */
    method AddShift(deltaPct: real)
      modifies this
      ensures shiftPct == old(shiftPct) + deltaPct
      ensures price == old(price) && lastPrice == old(lastPrice)
    {
      shiftPct := shiftPct + deltaPct;
    }
  }

  /**
   * How an event's effect is undone at end of day: adding the negated shift
   * restores the shift exactly, and the prices are never touched.
   */
  method ApplyThenRevert(s: Stock, deltaPct: real)
    modifies s
    ensures s.shiftPct == old(s.shiftPct)
    ensures s.price == old(s.price) && s.lastPrice == old(s.lastPrice)
  {
    s.AddShift(deltaPct);
    s.AddShift(-deltaPct);
  }
}
