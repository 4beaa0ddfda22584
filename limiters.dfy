/** The `aiolimiter.AsyncLimiter` objects of the invocation layer. The leaky bucket itself
    (and the waiting it causes) is not modelled: a limiter records, in order, the amounts
    that were acquired from it. */
module Limiters {

  class Limiter {
    /** `max_rate`: the capacity acquired per `time_period` seconds. */
    const maxRate: nat
    const timePeriod: nat
    /** Every `acquire(amount)` made so far, oldest first. */
    var acquired: seq<nat>

    constructor (maxRate: nat, timePeriod: nat)
      ensures this.maxRate == maxRate && this.timePeriod == timePeriod && acquired == []
    {
      this.maxRate := maxRate;
      this.timePeriod := timePeriod;
      acquired := [];
    }

    /** `await limiter.acquire(amount)`; `async with limiter` acquires an amount of 1. */
    method Acquire(amount: nat)
      modifies this
      ensures acquired == old(acquired) + [amount]
    {
      acquired := acquired + [amount];
    }
  }
}
