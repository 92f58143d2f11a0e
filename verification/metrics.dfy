/**
 * The per-replication accumulator of costs and service counters (Metrics.java).
 * The three cost accumulators are Java doubles; here they are exact reals.
 */
module Accounting {

  /** The value of every accumulator of a Metrics object at one moment. */
  datatype Tally = Tally(
    holdingCost: real,
    backorderCost: real,
    transportCost: real,
    ordersCount: int,
    fillImmediate: int,
    demandTotal: int,
    backordersCreated: int)

  const Zero := Tally(0.0, 0.0, 0.0, 0, 0, 0, 0)

  /** What `units` units cost at `rate` per unit. */
  function Cost(units: int, rate: real): real
  {
    (units as real) * rate
  }

  /** Two sets of accumulations, added accumulator by accumulator. */
  function Plus(a: Tally, b: Tally): Tally
  {
    Tally(a.holdingCost + b.holdingCost, a.backorderCost + b.backorderCost, a.transportCost + b.transportCost,
          a.ordersCount + b.ordersCount, a.fillImmediate + b.fillImmediate, a.demandTotal + b.demandTotal,
          a.backordersCreated + b.backordersCreated)
  }

  /** Adding `step` to an accumulation of `sum` from `start` gives the accumulation of `sum` plus `step`. */
  lemma Accumulate(start: Tally, before: Tally, after: Tally, sum: Tally, next: Tally, step: Tally)
    requires before == Plus(start, sum) && after == Plus(before, step) && next == Plus(sum, step)
    ensures after == Plus(start, next)
  {
  }

  class Metrics {
    var holdingCost: real
    var backorderCost: real
    var transportCost: real
    var ordersCount: int
    var fillImmediate: int
    var demandTotal: int
    var backordersCreated: int

    function AsTally(): Tally
      reads this
    {
      Tally(holdingCost, backorderCost, transportCost, ordersCount, fillImmediate, demandTotal, backordersCreated)
    }

    /** A fresh accumulator has every total at zero. */
    constructor ()
      ensures AsTally() == Zero
    {
      holdingCost, backorderCost, transportCost := 0.0, 0.0, 0.0;
      ordersCount, fillImmediate, demandTotal, backordersCreated := 0, 0, 0, 0;
    }

    method AddHoldingCost(cost: real)
      modifies this`holdingCost
      ensures holdingCost == old(holdingCost) + cost
      ensures AsTally() == old(AsTally()).(holdingCost := old(holdingCost) + cost)
    {
      holdingCost := holdingCost + cost;
    }

    method AddBackorderCost(cost: real)
      modifies this`backorderCost
      ensures backorderCost == old(backorderCost) + cost
      ensures AsTally() == old(AsTally()).(backorderCost := old(backorderCost) + cost)
    {
      backorderCost := backorderCost + cost;
    }

    method AddTransportCost(cost: real)
      modifies this`transportCost
      ensures transportCost == old(transportCost) + cost
      ensures AsTally() == old(AsTally()).(transportCost := old(transportCost) + cost)
    {
      transportCost := transportCost + cost;
    }

    method IncrementOrdersCount()
      modifies this`ordersCount
      ensures ordersCount == old(ordersCount) + 1
      ensures AsTally() == old(AsTally()).(ordersCount := old(ordersCount) + 1)
    {
      ordersCount := ordersCount + 1;
    }

    method AddFillImmediate(served: int)
      modifies this`fillImmediate
      ensures fillImmediate == old(fillImmediate) + served
      ensures AsTally() == old(AsTally()).(fillImmediate := old(fillImmediate) + served)
    {
      fillImmediate := fillImmediate + served;
    }

    method AddDemandTotal(demand: int)
      modifies this`demandTotal
      ensures demandTotal == old(demandTotal) + demand
      ensures AsTally() == old(AsTally()).(demandTotal := old(demandTotal) + demand)
    {
      demandTotal := demandTotal + demand;
    }

    method AddBackordersCreated(shortage: int)
      modifies this`backordersCreated
      ensures backordersCreated == old(backordersCreated) + shortage
      ensures AsTally() == old(AsTally()).(backordersCreated := old(backordersCreated) + shortage)
    {
      backordersCreated := backordersCreated + shortage;
    }

    /**
     * The fraction of demand served immediately from stock; 0 when there
     * was no demand at all, instead of a division by zero.
     */
    function CalculateFillRate(): (r: real)
      reads this
      ensures demandTotal == 0 ==> r == 0.0
      ensures demandTotal != 0 ==> r * (demandTotal as real) == fillImmediate as real
      ensures 0 <= fillImmediate <= demandTotal ==> 0.0 <= r <= 1.0
    {
      if demandTotal == 0 then 0.0 else (fillImmediate as real) / (demandTotal as real)
    }

    /** The replication's total cost: no part of any accumulator is lost or counted twice. */
    function CalculateTotalCost(): (r: real)
      reads this
      ensures r == holdingCost + backorderCost + transportCost
      ensures holdingCost >= 0.0 && backorderCost >= 0.0 && transportCost >= 0.0 ==>
                r >= holdingCost && r >= backorderCost && r >= transportCost
    {
      holdingCost + backorderCost + transportCost
    }
  }
}
