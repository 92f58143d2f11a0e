/**
 * One replication of each supply-chain design, as functions on values: the
 * day loops of runCentralizedReplication and runDecentralizedReplication
 * (Simulation.java) over node ledgers and a metrics tally, with the daily
 * demand draws given as a table. The methods of module Simulation are proved
 * to compute exactly these; the lemmas here say what a run promises.
 */
module Replication {
  import opened Shipments
  import opened Nodes
  import opened Accounting
  import opened DailyCycle

  /** Lead times in days and cost rates of an experiment (the constants the simulation reads from Params). */
  datatype Config = Config(
    ltMfgToCw: int,
    ltCwToRetailer: int,
    ltMfgToRetailer: int,
    costHoldingPerDay: real,
    costBackorderPerDay: real,
    costTransportInbound: real,
    costTransportOutbound: real,
    costTransportDirect: real)

  /** The values Params.java sets. */
  const Defaults := Config(2, 1, 4, 0.10, 5.00, 0.50, 0.25, 0.75)

  /** A demand table: one row per day, each row holding one demand per retailer. */
  predicate Shaped(demands: seq<seq<int>>, n: int)
  {
    forall t :: 0 <= t < |demands| ==> |demands[t]| == n
  }

  /** The demands one retailer sees, day by day. */
  function Column(demands: seq<seq<int>>, k: nat): (col: seq<int>)
    requires forall t :: 0 <= t < |demands| ==> k < |demands[t]|
    ensures |col| == |demands|
    ensures forall t :: 0 <= t < |demands| ==> col[t] == demands[t][k]
  {
    seq(|demands|, t requires 0 <= t < |demands| => demands[t][k])
  }

  // ---- Sums over a list of retailers -------------------------------------------------

  function DemandSum(ds: seq<int>): int
  {
    if ds == [] then 0 else DemandSum(ds[..|ds| - 1]) + ds[|ds| - 1]
  }

  /** How many entries are positive. */
  function PositiveCount(ds: seq<int>): nat
  {
    if ds == [] then 0 else PositiveCount(ds[..|ds| - 1]) + (if ds[|ds| - 1] > 0 then 1 else 0)
  }

  /** All demand of a table. */
  function GrandTotal(demands: seq<seq<int>>): int
  {
    if demands == [] then 0 else GrandTotal(demands[..|demands| - 1]) + DemandSum(demands[|demands| - 1])
  }

  /** How many (day, retailer) demands of a table are positive. */
  function PositiveTotal(demands: seq<seq<int>>): nat
  {
    if demands == [] then 0 else PositiveTotal(demands[..|demands| - 1]) + PositiveCount(demands[|demands| - 1])
  }

  /**
   * What serving `demand` from ledger `l` adds to the metrics (fulfillDemand):
   * the demand, split into units served at once and units backordered, and no
   * cost or order. From non-negative stock, the units served are the smaller
   * of the stock and the demand.
   */
  function ServedTally(l: Ledger, demand: int): (r: Tally)
    ensures r.demandTotal == demand && r.fillImmediate + r.backordersCreated == demand
    ensures l.onHand >= 0 ==> r.fillImmediate == Min(l.onHand, demand)
    ensures r.holdingCost == 0.0 && r.backorderCost == 0.0 && r.transportCost == 0.0 && r.ordersCount == 0
  {
    var sv := Serve(l, demand);
    Tally(0.0, 0.0, 0.0, 0, sv.served, demand, sv.shortage)
  }

  /**
   * What the base-stock review of ledger `l` adds to the metrics
   * (placeBaseStockOrder): one order exactly when the node is below its
   * target, priced at the rate on the units ordered, and nothing else.
   */
  function OrderTally(l: Ledger, cPerUnit: real): (r: Tally)
    ensures r.ordersCount == 1 <==> OrderQty(l) > 0
    ensures 0 <= r.ordersCount <= 1
    ensures r.transportCost == Cost(Max(OrderQty(l), 0), cPerUnit)
    ensures r.holdingCost == 0.0 && r.backorderCost == 0.0
    ensures r.fillImmediate == 0 && r.demandTotal == 0 && r.backordersCreated == 0
  {
    var qty := OrderQty(l);
    if qty > 0 then Tally(0.0, 0.0, Cost(qty, cPerUnit), 1, 0, 0, 0) else Zero
  }

  /**
   * What one night of ledger `l` adds to the metrics (accrueDailyCosts): the
   * holding and backorder costs only, none of them negative for a settled
   * node at non-negative rates, and no backorder cost without a backorder.
   */
  function CostTally(l: Ledger, holdingRate: real, backorderRate: real): (r: Tally)
    ensures r.transportCost == 0.0 && r.ordersCount == 0
    ensures r.fillImmediate == 0 && r.demandTotal == 0 && r.backordersCreated == 0
    ensures l.onHand >= 0 && holdingRate >= 0.0 ==> r.holdingCost >= 0.0
    ensures l.backorder >= 0 && backorderRate >= 0.0 ==> r.backorderCost >= 0.0
    ensures l.onHand == 0 ==> r.holdingCost == 0.0
    ensures l.backorder == 0 ==> r.backorderCost == 0.0
  {
    Tally(Cost(l.onHand, holdingRate), Cost(l.backorder, backorderRate), 0.0, 0, 0, 0, 0)
  }

  /** The service tallies of the first `n` retailers, added up. */
  function ServeSum(ls: seq<Ledger>, ds: seq<int>, n: nat): Tally
    requires n <= |ls| == |ds|
  {
    if n == 0 then Zero else Plus(ServeSum(ls, ds, n - 1), ServedTally(ls[n - 1], ds[n - 1]))
  }

  /** The order tallies of the first `n` nodes, added up. */
  function OrderSum(ls: seq<Ledger>, cPerUnit: real, n: nat): Tally
    requires n <= |ls|
  {
    if n == 0 then Zero else Plus(OrderSum(ls, cPerUnit, n - 1), OrderTally(ls[n - 1], cPerUnit))
  }

  /** The cost tallies of the first `n` nodes, added up. */
  function CostSum(ls: seq<Ledger>, holdingRate: real, backorderRate: real, n: nat): Tally
    requires n <= |ls|
  {
    if n == 0 then Zero else Plus(CostSum(ls, holdingRate, backorderRate, n - 1), CostTally(ls[n - 1], holdingRate, backorderRate))
  }

  /**
   * Service adds only to the three service counters: every unit of demand is
   * either served from stock or backordered, and with non-negative stock and
   * demand the units served are between zero and the demand.
   */
  lemma {:induction false} ServeSumFacts(ls: seq<Ledger>, ds: seq<int>, n: nat)
    requires n <= |ls| == |ds|
    ensures var t := ServeSum(ls, ds, n);
      t.holdingCost == 0.0 && t.backorderCost == 0.0 && t.transportCost == 0.0 && t.ordersCount == 0
      && t.demandTotal == DemandSum(ds[..n]) && t.fillImmediate + t.backordersCreated == t.demandTotal
    ensures (forall k :: 0 <= k < n ==> ls[k].onHand >= 0 && ds[k] >= 0) ==>
              0 <= ServeSum(ls, ds, n).fillImmediate <= ServeSum(ls, ds, n).demandTotal
  {
    if n > 0 {
      ServeSumFacts(ls, ds, n - 1);
      assert ds[..n][..n - 1] == ds[..n - 1];
    }
  }

  /** Orders add only to the transport cost and the order count, at most one order per node. */
  lemma {:induction false} OrderSumFacts(ls: seq<Ledger>, cPerUnit: real, n: nat)
    requires n <= |ls|
    ensures var t := OrderSum(ls, cPerUnit, n);
      t.holdingCost == 0.0 && t.backorderCost == 0.0 && t.fillImmediate == 0 && t.demandTotal == 0
      && t.backordersCreated == 0 && 0 <= t.ordersCount <= n
  {
    if n > 0 {
      OrderSumFacts(ls, cPerUnit, n - 1);
    }
  }

  /** The night's costs add only to the holding and backorder costs, never negatively from settled nodes. */
  lemma {:induction false} CostSumFacts(ls: seq<Ledger>, holdingRate: real, backorderRate: real, n: nat)
    requires n <= |ls|
    ensures var t := CostSum(ls, holdingRate, backorderRate, n);
      t.transportCost == 0.0 && t.ordersCount == 0 && t.fillImmediate == 0 && t.demandTotal == 0
      && t.backordersCreated == 0
    ensures holdingRate >= 0.0 && backorderRate >= 0.0 && (forall k :: 0 <= k < n ==> Settled(ls[k])) ==>
              CostSum(ls, holdingRate, backorderRate, n).holdingCost >= 0.0
              && CostSum(ls, holdingRate, backorderRate, n).backorderCost >= 0.0
  {
    if n > 0 {
      CostSumFacts(ls, holdingRate, backorderRate, n - 1);
    }
  }

  // ---- One step of a day, applied to every retailer ------------------------------------

  function ReceiveAll(ls: seq<Ledger>, day: int): (r: seq<Ledger>)
    ensures |r| == |ls|
    ensures forall k :: 0 <= k < |ls| ==> r[k] == Receive(ls[k], day)
  {
    seq(|ls|, k requires 0 <= k < |ls| => Receive(ls[k], day))
  }

  function ServeAll(ls: seq<Ledger>, ds: seq<int>): (r: seq<Ledger>)
    requires |ls| == |ds|
    ensures |r| == |ls|
    ensures forall k :: 0 <= k < |ls| ==> r[k] == Serve(ls[k], ds[k]).ledger
  {
    seq(|ls|, k requires 0 <= k < |ls| => Serve(ls[k], ds[k]).ledger)
  }

  function OrderAll(ls: seq<Ledger>, src: string, arriveDay: int, cPerUnit: real): (r: seq<Ledger>)
    ensures |r| == |ls|
    ensures forall k :: 0 <= k < |ls| ==> r[k] == Order(ls[k], src, arriveDay, cPerUnit)
  {
    seq(|ls|, k requires 0 <= k < |ls| => Order(ls[k], src, arriveDay, cPerUnit))
  }

  function ResetAll(ls: seq<Ledger>): (r: seq<Ledger>)
    ensures |r| == |ls|
    ensures forall k :: 0 <= k < |ls| ==> r[k] == Reset(ls[k])
  {
    seq(|ls|, k requires 0 <= k < |ls| => Reset(ls[k]))
  }

  // ---- The centralized design: manufacturer -> warehouse -> retailers -------------------

  datatype Centralized = Centralized(cw: Ledger, retailers: seq<Ledger>, tally: Tally)

  /**
   * The metrics at the end of a day of the centralized design, from those of
   * the morning (`t`) and the day's ledgers: the retailers' service against
   * their `morning` ledgers, the warehouse's order from its `cwMorning`
   * ledger, the retailers' orders from their `served` ledgers, and the
   * night's holding and backorder costs of the warehouse and every retailer.
   */
  function CentralizedTally(t: Tally, ds: seq<int>, cwMorning: Ledger, morning: seq<Ledger>, served: seq<Ledger>,
                            allEvening: seq<Ledger>, cfg: Config): (r: Tally)
    requires |morning| == |ds| && |served| == |ds|
    ensures r.demandTotal - t.demandTotal == DemandSum(ds)
    ensures (r.fillImmediate - t.fillImmediate) + (r.backordersCreated - t.backordersCreated) == DemandSum(ds)
  {
    ServeSumFacts(morning, ds, |ds|);
    OrderSumFacts(served, cfg.costTransportOutbound, |ds|);
    CostSumFacts(allEvening, cfg.costHoldingPerDay, cfg.costBackorderPerDay, |allEvening|);
    assert ds[..|ds|] == ds;
    Plus(Plus(Plus(Plus(t, ServeSum(morning, ds, |ds|)),
                   OrderTally(cwMorning, cfg.costTransportInbound)),
              OrderSum(served, cfg.costTransportOutbound, |ds|)),
         CostSum(allEvening, cfg.costHoldingPerDay, cfg.costBackorderPerDay, |allEvening|))
  }

  /**
   * One day of the centralized design: arrivals and clearing at the warehouse
   * and the retailers, retailer demand, the warehouse's order to the
   * manufacturer, the retailers' orders to the warehouse, then the costs. A
   * retailer's order names the warehouse as its source and nothing else: the
   * warehouse's stock is not touched.
   */
  function CentralizedDay(c: Centralized, day: int, ds: seq<int>, mfgName: string, cfg: Config): (r: Centralized)
    requires |ds| == |c.retailers|
    ensures |r.retailers| == |c.retailers| && r.cw.name == c.cw.name && r.cw.baseStock == c.cw.baseStock
    ensures r.tally.demandTotal - c.tally.demandTotal == DemandSum(ds)
    ensures (r.tally.fillImmediate - c.tally.fillImmediate) + (r.tally.backordersCreated - c.tally.backordersCreated) == DemandSum(ds)
  {
    var cwMorning := Receive(c.cw, day);
    var morning := ReceiveAll(c.retailers, day);
    var served := ServeAll(morning, ds);
    var cwEvening := Order(cwMorning, mfgName, ArrivalDay(day, cfg.ltMfgToCw), cfg.costTransportInbound);
    var evening := OrderAll(served, c.cw.name, ArrivalDay(day, cfg.ltCwToRetailer), cfg.costTransportOutbound);
    Centralized(cwEvening, evening, CentralizedTally(c.tally, ds, cwMorning, morning, served, [cwEvening] + evening, cfg))
  }

  /** The state after days 1 .. |demands|, with `demands[t]` the demands of day t + 1. */
  function CentralizedRun(start: Centralized, demands: seq<seq<int>>, mfgName: string, cfg: Config): (r: Centralized)
    requires Shaped(demands, |start.retailers|)
    ensures |r.retailers| == |start.retailers| && r.cw.name == start.cw.name
    decreases |demands|
  {
    if demands == [] then start
    else CentralizedDay(CentralizedRun(start, demands[..|demands| - 1], mfgName, cfg), |demands|, demands[|demands| - 1], mfgName, cfg)
  }

  // ---- The decentralized design: manufacturer -> retailers ------------------------------

  datatype Decentralized = Decentralized(retailers: seq<Ledger>, tally: Tally)

  /** The metrics at the end of a decentralized day: those of the morning plus service, orders and the retailers' costs. */
  function DecentralizedTally(t: Tally, ds: seq<int>, morning: seq<Ledger>, served: seq<Ledger>, evening: seq<Ledger>,
                              cfg: Config): (r: Tally)
    requires |morning| == |ds| && |served| == |ds| && |evening| == |ds|
    ensures r.demandTotal - t.demandTotal == DemandSum(ds)
    ensures (r.fillImmediate - t.fillImmediate) + (r.backordersCreated - t.backordersCreated) == DemandSum(ds)
  {
    ServeSumFacts(morning, ds, |ds|);
    OrderSumFacts(served, cfg.costTransportDirect, |ds|);
    CostSumFacts(evening, cfg.costHoldingPerDay, cfg.costBackorderPerDay, |ds|);
    assert ds[..|ds|] == ds;
    Plus(Plus(Plus(t, ServeSum(morning, ds, |ds|)), OrderSum(served, cfg.costTransportDirect, |ds|)),
         CostSum(evening, cfg.costHoldingPerDay, cfg.costBackorderPerDay, |ds|))
  }

  /**
   * One day of the decentralized design: arrivals and clearing, demand, the
   * retailers' orders straight to the manufacturer, then the retailers' costs.
   */
  function DecentralizedDay(d: Decentralized, day: int, ds: seq<int>, mfgName: string, cfg: Config): (r: Decentralized)
    requires |ds| == |d.retailers|
    ensures |r.retailers| == |d.retailers|
    ensures r.tally.demandTotal - d.tally.demandTotal == DemandSum(ds)
    ensures (r.tally.fillImmediate - d.tally.fillImmediate) + (r.tally.backordersCreated - d.tally.backordersCreated) == DemandSum(ds)
  {
    var morning := ReceiveAll(d.retailers, day);
    var served := ServeAll(morning, ds);
    var evening := OrderAll(served, mfgName, ArrivalDay(day, cfg.ltMfgToRetailer), cfg.costTransportDirect);
    Decentralized(evening, DecentralizedTally(d.tally, ds, morning, served, evening, cfg))
  }

  function DecentralizedRun(start: Decentralized, demands: seq<seq<int>>, mfgName: string, cfg: Config): (r: Decentralized)
    requires Shaped(demands, |start.retailers|)
    ensures |r.retailers| == |start.retailers|
    decreases |demands|
  {
    if demands == [] then start
    else DecentralizedDay(DecentralizedRun(start, demands[..|demands| - 1], mfgName, cfg), |demands|, demands[|demands| - 1], mfgName, cfg)
  }

  /** A centralized run over the first `day` days is the run over the days before, followed by day `day`. */
  lemma CentralizedRunUnfold(start: Centralized, demands: seq<seq<int>>, day: int, mfgName: string, cfg: Config)
    requires Shaped(demands, |start.retailers|) && 1 <= day <= |demands|
    ensures CentralizedRun(start, demands[..day], mfgName, cfg)
            == CentralizedDay(CentralizedRun(start, demands[..day - 1], mfgName, cfg), day, demands[day - 1], mfgName, cfg)
  {
    assert demands[..day][..day - 1] == demands[..day - 1];
  }

  /** Running one more day extends a centralized run. */
  lemma CentralizedRunStep(start: Centralized, demands: seq<seq<int>>, day: int, mfgName: string, cfg: Config,
                           before: Centralized, after: Centralized)
    requires Shaped(demands, |start.retailers|) && 1 <= day <= |demands|
    requires before == CentralizedRun(start, demands[..day - 1], mfgName, cfg)
    requires after == CentralizedDay(before, day, demands[day - 1], mfgName, cfg)
    ensures after == CentralizedRun(start, demands[..day], mfgName, cfg)
  {
    CentralizedRunUnfold(start, demands, day, mfgName, cfg);
  }

  /** A decentralized run over the first `day` days is the run over the days before, followed by day `day`. */
  lemma DecentralizedRunUnfold(start: Decentralized, demands: seq<seq<int>>, day: int, mfgName: string, cfg: Config)
    requires Shaped(demands, |start.retailers|) && 1 <= day <= |demands|
    ensures DecentralizedRun(start, demands[..day], mfgName, cfg)
            == DecentralizedDay(DecentralizedRun(start, demands[..day - 1], mfgName, cfg), day, demands[day - 1], mfgName, cfg)
  {
    assert demands[..day][..day - 1] == demands[..day - 1];
  }

  /** Running one more day extends a decentralized run. */
  lemma DecentralizedRunStep(start: Decentralized, demands: seq<seq<int>>, day: int, mfgName: string, cfg: Config,
                             before: Decentralized, after: Decentralized)
    requires Shaped(demands, |start.retailers|) && 1 <= day <= |demands|
    requires before == DecentralizedRun(start, demands[..day - 1], mfgName, cfg)
    requires after == DecentralizedDay(before, day, demands[day - 1], mfgName, cfg)
    ensures after == DecentralizedRun(start, demands[..day], mfgName, cfg)
  {
    DecentralizedRunUnfold(start, demands, day, mfgName, cfg);
  }

  /** A decentralized day assembled from its steps, in the order the simulation takes them. */
  lemma DecentralizedDaySteps(d: Decentralized, day: int, ds: seq<int>, mfgName: string, cfg: Config,
                              morning: seq<Ledger>, served: seq<Ledger>, evening: seq<Ledger>, t1: Tally, t2: Tally, t3: Tally)
    requires |ds| == |d.retailers|
    requires morning == ReceiveAll(d.retailers, day) && served == ServeAll(morning, ds)
    requires evening == OrderAll(served, mfgName, ArrivalDay(day, cfg.ltMfgToRetailer), cfg.costTransportDirect)
    requires t1 == Plus(d.tally, ServeSum(morning, ds, |ds|))
    requires t2 == Plus(t1, OrderSum(served, cfg.costTransportDirect, |ds|))
    requires t3 == Plus(t2, CostSum(evening, cfg.costHoldingPerDay, cfg.costBackorderPerDay, |ds|))
    ensures Decentralized(evening, t3) == DecentralizedDay(d, day, ds, mfgName, cfg)
  {
  }

  /** A centralized day assembled from its steps, in the order the simulation takes them. */
  lemma CentralizedDaySteps(c: Centralized, day: int, ds: seq<int>, mfgName: string, cfg: Config,
                            cwMorning: Ledger, morning: seq<Ledger>, served: seq<Ledger>, cwEvening: Ledger,
                            evening: seq<Ledger>, allEvening: seq<Ledger>, t1: Tally, t2: Tally)
    requires |ds| == |c.retailers|
    requires cwMorning == Receive(c.cw, day) && morning == ReceiveAll(c.retailers, day) && served == ServeAll(morning, ds)
    requires cwEvening == Order(cwMorning, mfgName, ArrivalDay(day, cfg.ltMfgToCw), cfg.costTransportInbound)
    requires evening == OrderAll(served, c.cw.name, ArrivalDay(day, cfg.ltCwToRetailer), cfg.costTransportOutbound)
    requires allEvening == [cwEvening] + evening
    requires t1 == Plus(c.tally, ServeSum(morning, ds, |ds|))
    requires t2 == Plus(Plus(Plus(t1, OrderTally(cwMorning, cfg.costTransportInbound)),
                             OrderSum(served, cfg.costTransportOutbound, |ds|)),
                        CostSum(allEvening, cfg.costHoldingPerDay, cfg.costBackorderPerDay, |allEvening|))
    ensures Centralized(cwEvening, evening, t2) == CentralizedDay(c, day, ds, mfgName, cfg)
  {
  }
}
