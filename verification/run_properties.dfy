/**
 * What a replication promises: the metrics balance demand against service,
 * and a run that starts from the per-replication reset keeps every retailer
 * at its base stock, passes each day's demand straight through to its
 * supplier and never makes the warehouse order or change.
 */
module RunProperties {
  import opened Shipments
  import opened Nodes
  import opened Accounting
  import opened DailyCycle
  import opened Replication

  /** Every demand of a table is non-negative (drawDailyDemand clamps its draws at zero). */
  predicate NonNegative(demands: seq<seq<int>>)
  {
    forall t, k :: 0 <= t < |demands| && 0 <= k < |demands[t]| ==> demands[t][k] >= 0
  }

  /** Every ledger of a list is in the steady state at the end of `day`. */
  ghost predicate AllSteady(ls: seq<Ledger>, day: int, lead: int)
  {
    forall k :: 0 <= k < |ls| ==> Steady(ls[k], day, lead)
  }

  // ---- Sums over the retailers of one day ----------------------------------------------

  /**
   * When every node is short of its target by exactly its demand, the orders
   * are one per positive demand and the transport cost is the total demand
   * times the rate.
   */
  lemma {:induction false} OrderSumPassThrough(ls: seq<Ledger>, ds: seq<int>, cPerUnit: real, n: nat)
    requires n <= |ls| == |ds|
    requires forall k :: 0 <= k < n ==> ds[k] >= 0 && OrderQty(ls[k]) == ds[k]
    ensures OrderSum(ls, cPerUnit, n).ordersCount == PositiveCount(ds[..n])
    ensures OrderSum(ls, cPerUnit, n).transportCost == Cost(DemandSum(ds[..n]), cPerUnit)
  {
    if n > 0 {
      OrderSumPassThrough(ls, ds, cPerUnit, n - 1);
      assert ds[..n][..n - 1] == ds[..n - 1];
      var before := DemandSum(ds[..n - 1]);
      assert DemandSum(ds[..n]) == before + ds[n - 1];
      var step := OrderTally(ls[n - 1], cPerUnit);
      assert step.transportCost == Cost(ds[n - 1], cPerUnit) by {
        if ds[n - 1] == 0 { ZeroTimes(ds[n - 1], cPerUnit); }
      }
      Distribute(DemandSum(ds[..n]), before, ds[n - 1], cPerUnit);
    }
  }

  /** Nothing, priced at any rate, costs nothing. */
  lemma ZeroTimes(x: int, c: real)
    requires x == 0
    ensures Cost(x, c) == 0.0
  {
  }

  /** A total of two parts, priced at one rate, costs what the two parts cost. */
  lemma Distribute(total: int, a: int, b: int, c: real)
    requires total == a + b
    ensures Cost(total, c) == Cost(a, c) + Cost(b, c)
  {
  }

  // ---- One day ---------------------------------------------------------------------------

  /**
   * The retailers' part of a day from a steady state with non-negative
   * demands: each retailer has non-negative stock when its demand arrives,
   * is short of its target by exactly that demand after serving it, and ends
   * the day steady.
   */
  lemma RetailersDaySteady(rs: seq<Ledger>, day: int, ds: seq<int>, src: string, lead: int, cPerUnit: real)
    requires |ds| == |rs| && lead >= 1
    requires forall k :: 0 <= k < |ds| ==> ds[k] >= 0
    requires AllSteady(rs, day - 1, lead)
    ensures var morning := ReceiveAll(rs, day);
      var served := ServeAll(morning, ds);
      AllSteady(OrderAll(served, src, ArrivalDay(day, lead), cPerUnit), day, lead)
      && (forall k :: 0 <= k < |ds| ==> morning[k].onHand >= 0 && OrderQty(served[k]) == ds[k])
  {
    var morning := ReceiveAll(rs, day);
    var served := ServeAll(morning, ds);
    var evening := OrderAll(served, src, ArrivalDay(day, lead), cPerUnit);
    forall k | 0 <= k < |ds|
      ensures morning[k].onHand >= 0 && OrderQty(served[k]) == ds[k] && Steady(evening[k], day, lead)
    {
      ServeSteady(rs[k], day, ds[k], lead);
      RetailerDaySteady(rs[k], day, ds[k], src, lead, cPerUnit);
    }
  }

  /**
   * The service and order part of a day's tally when every retailer has
   * non-negative stock at its demand and orders exactly its demand.
   */
  lemma ServiceAndOrdersPassThrough(morning: seq<Ledger>, served: seq<Ledger>, ds: seq<int>, cPerUnit: real)
    requires |morning| == |ds| && |served| == |ds|
    requires forall k :: 0 <= k < |ds| ==> ds[k] >= 0 && morning[k].onHand >= 0 && OrderQty(served[k]) == ds[k]
    ensures 0 <= ServeSum(morning, ds, |ds|).fillImmediate <= ServeSum(morning, ds, |ds|).demandTotal
    ensures OrderSum(served, cPerUnit, |ds|).ordersCount == PositiveCount(ds)
    ensures OrderSum(served, cPerUnit, |ds|).transportCost == Cost(DemandSum(ds), cPerUnit)
  {
    ServeSumFacts(morning, ds, |ds|);
    OrderSumPassThrough(served, ds, cPerUnit, |ds|);
    assert ds[..|ds|] == ds;
  }

  /** The tally of a decentralized day whose retailers pass their demand through. */
  lemma DecentralizedTallySteady(t: Tally, ds: seq<int>, morning: seq<Ledger>, served: seq<Ledger>, evening: seq<Ledger>,
                                 cfg: Config)
    requires |morning| == |ds| && |served| == |ds| && |evening| == |ds|
    requires forall k :: 0 <= k < |ds| ==> ds[k] >= 0 && morning[k].onHand >= 0 && OrderQty(served[k]) == ds[k]
    requires forall k :: 0 <= k < |evening| ==> Settled(evening[k])
    ensures var e := DecentralizedTally(t, ds, morning, served, evening, cfg);
      e.ordersCount - t.ordersCount == PositiveCount(ds)
      && e.transportCost - t.transportCost == Cost(DemandSum(ds), cfg.costTransportDirect)
      && 0 <= e.fillImmediate - t.fillImmediate <= e.demandTotal - t.demandTotal
      && (cfg.costHoldingPerDay >= 0.0 && cfg.costBackorderPerDay >= 0.0 ==>
            e.holdingCost >= t.holdingCost && e.backorderCost >= t.backorderCost)
  {
    ServiceAndOrdersPassThrough(morning, served, ds, cfg.costTransportDirect);
    ServeSumFacts(morning, ds, |ds|);
    OrderSumFacts(served, cfg.costTransportDirect, |ds|);
    CostSumFacts(evening, cfg.costHoldingPerDay, cfg.costBackorderPerDay, |ds|);
  }

  /** The tally of a centralized day whose warehouse does not order and whose retailers pass their demand through. */
  lemma CentralizedTallySteady(t: Tally, ds: seq<int>, cwMorning: Ledger, morning: seq<Ledger>, served: seq<Ledger>,
                               cwEvening: Ledger, evening: seq<Ledger>, cfg: Config)
    requires |morning| == |ds| && |served| == |ds|
    requires forall k :: 0 <= k < |ds| ==> ds[k] >= 0 && morning[k].onHand >= 0 && OrderQty(served[k]) == ds[k]
    requires OrderQty(cwMorning) <= 0
    requires Settled(cwEvening) && forall k :: 0 <= k < |evening| ==> Settled(evening[k])
    ensures var e := CentralizedTally(t, ds, cwMorning, morning, served, [cwEvening] + evening, cfg);
      e.ordersCount - t.ordersCount == PositiveCount(ds)
      && e.transportCost - t.transportCost == Cost(DemandSum(ds), cfg.costTransportOutbound)
      && 0 <= e.fillImmediate - t.fillImmediate <= e.demandTotal - t.demandTotal
      && (cfg.costHoldingPerDay >= 0.0 && cfg.costBackorderPerDay >= 0.0 ==>
            e.holdingCost >= t.holdingCost && e.backorderCost >= t.backorderCost)
  {
    var all := [cwEvening] + evening;
    forall k | 0 <= k < |all| ensures Settled(all[k]) {
      if k > 0 { assert all[k] == evening[k - 1]; }
    }
    ServiceAndOrdersPassThrough(morning, served, ds, cfg.costTransportOutbound);
    ServeSumFacts(morning, ds, |ds|);
    OrderSumFacts(served, cfg.costTransportOutbound, |ds|);
    CostSumFacts(all, cfg.costHoldingPerDay, cfg.costBackorderPerDay, |all|);
  }

  /**
   * A decentralized day from a steady state: the retailers end steady, the
   * orders are one per positive demand at the direct rate, the units served
   * lie between none and the day's demand, and the costs do not decrease.
   */
  lemma DecentralizedDaySteady(d: Decentralized, day: int, ds: seq<int>, mfgName: string, cfg: Config)
    requires |ds| == |d.retailers| && cfg.ltMfgToRetailer >= 1
    requires forall k :: 0 <= k < |ds| ==> ds[k] >= 0
    requires AllSteady(d.retailers, day - 1, cfg.ltMfgToRetailer)
    ensures var e := DecentralizedDay(d, day, ds, mfgName, cfg);
      AllSteady(e.retailers, day, cfg.ltMfgToRetailer)
      && e.tally.ordersCount - d.tally.ordersCount == PositiveCount(ds)
      && e.tally.transportCost - d.tally.transportCost == Cost(DemandSum(ds), cfg.costTransportDirect)
      && 0 <= e.tally.fillImmediate - d.tally.fillImmediate <= e.tally.demandTotal - d.tally.demandTotal
      && (cfg.costHoldingPerDay >= 0.0 && cfg.costBackorderPerDay >= 0.0 ==>
            e.tally.holdingCost >= d.tally.holdingCost && e.tally.backorderCost >= d.tally.backorderCost)
  {
    var morning := ReceiveAll(d.retailers, day);
    var served := ServeAll(morning, ds);
    var evening := OrderAll(served, mfgName, ArrivalDay(day, cfg.ltMfgToRetailer), cfg.costTransportDirect);
    RetailersDaySteady(d.retailers, day, ds, mfgName, cfg.ltMfgToRetailer, cfg.costTransportDirect);
    DecentralizedTallySteady(d.tally, ds, morning, served, evening, cfg);
  }

  /**
   * A centralized day from a steady state: the warehouse places no order and
   * ends steady, the retailers end steady, the orders are one per positive
   * retailer demand at the outbound rate, the units served lie between none
   * and the day's demand, and the costs do not decrease.
   */
  lemma CentralizedDaySteady(c: Centralized, day: int, ds: seq<int>, mfgName: string, cfg: Config)
    requires |ds| == |c.retailers| && cfg.ltMfgToCw >= 1 && cfg.ltCwToRetailer >= 1
    requires forall k :: 0 <= k < |ds| ==> ds[k] >= 0
    requires Steady(c.cw, day - 1, cfg.ltMfgToCw) && AllSteady(c.retailers, day - 1, cfg.ltCwToRetailer)
    ensures var e := CentralizedDay(c, day, ds, mfgName, cfg);
      Steady(e.cw, day, cfg.ltMfgToCw) && AllSteady(e.retailers, day, cfg.ltCwToRetailer)
      && e.tally.ordersCount - c.tally.ordersCount == PositiveCount(ds)
      && e.tally.transportCost - c.tally.transportCost == Cost(DemandSum(ds), cfg.costTransportOutbound)
      && 0 <= e.tally.fillImmediate - c.tally.fillImmediate <= e.tally.demandTotal - c.tally.demandTotal
      && (cfg.costHoldingPerDay >= 0.0 && cfg.costBackorderPerDay >= 0.0 ==>
            e.tally.holdingCost >= c.tally.holdingCost && e.tally.backorderCost >= c.tally.backorderCost)
  {
    var cwMorning := Receive(c.cw, day);
    var morning := ReceiveAll(c.retailers, day);
    var served := ServeAll(morning, ds);
    var cwEvening := Order(cwMorning, mfgName, ArrivalDay(day, cfg.ltMfgToCw), cfg.costTransportInbound);
    var evening := OrderAll(served, c.cw.name, ArrivalDay(day, cfg.ltCwToRetailer), cfg.costTransportOutbound);
    WarehouseDayNoOrder(c.cw, day, mfgName, cfg.ltMfgToCw, cfg.costTransportInbound);
    assert cwEvening == WarehouseDay(c.cw, day, mfgName, cfg.ltMfgToCw, cfg.costTransportInbound);
    RetailersDaySteady(c.retailers, day, ds, c.cw.name, cfg.ltCwToRetailer, cfg.costTransportOutbound);
    CentralizedTallySteady(c.tally, ds, cwMorning, morning, served, cwEvening, evening, cfg);
  }

  // ---- Whole replications ----------------------------------------------------------------

  /** The demand of a table priced at rate `c`, day by day. */
  function PricedDemand(demands: seq<seq<int>>, c: real): real
  {
    if demands == [] then 0.0
    else PricedDemand(demands[..|demands| - 1], c) + Cost(DemandSum(demands[|demands| - 1]), c)
  }

  /** Pricing day by day is pricing the total demand. */
  lemma {:induction false} PricedDemandTotal(demands: seq<seq<int>>, c: real)
    ensures PricedDemand(demands, c) == Cost(GrandTotal(demands), c)
  {
    if demands == [] {
      ZeroTimes(GrandTotal(demands), c);
    } else {
      PricedDemandTotal(demands[..|demands| - 1], c);
      Distribute(GrandTotal(demands), GrandTotal(demands[..|demands| - 1]), DemandSum(demands[|demands| - 1]), c);
    }
  }

  /** Over a decentralized run, every unit of demand is counted once and is either served or backordered. */
  lemma {:induction false} DecentralizedRunBalance(start: Decentralized, demands: seq<seq<int>>, mfgName: string, cfg: Config)
    requires Shaped(demands, |start.retailers|)
    ensures var r := DecentralizedRun(start, demands, mfgName, cfg);
      r.tally.demandTotal - start.tally.demandTotal == GrandTotal(demands)
      && (r.tally.fillImmediate - start.tally.fillImmediate) + (r.tally.backordersCreated - start.tally.backordersCreated)
         == GrandTotal(demands)
    decreases |demands|
  {
    if demands != [] {
      var prefix := demands[..|demands| - 1];
      DecentralizedRunBalance(start, prefix, mfgName, cfg);
    }
  }

  /** Over a centralized run, every unit of retailer demand is counted once and is either served or backordered. */
  lemma {:induction false} CentralizedRunBalance(start: Centralized, demands: seq<seq<int>>, mfgName: string, cfg: Config)
    requires Shaped(demands, |start.retailers|)
    ensures var r := CentralizedRun(start, demands, mfgName, cfg);
      r.tally.demandTotal - start.tally.demandTotal == GrandTotal(demands)
      && (r.tally.fillImmediate - start.tally.fillImmediate) + (r.tally.backordersCreated - start.tally.backordersCreated)
         == GrandTotal(demands)
    decreases |demands|
  {
    if demands != [] {
      var prefix := demands[..|demands| - 1];
      CentralizedRunBalance(start, prefix, mfgName, cfg);
    }
  }

  /**
   * A decentralized run from a steady state with non-negative demands keeps
   * every retailer steady, places one order per positive demand, pays the
   * direct rate on exactly the total demand, serves between none and all of
   * it, and never lowers the costs.
   */
  lemma {:induction false} DecentralizedRunSteady(start: Decentralized, demands: seq<seq<int>>, mfgName: string, cfg: Config)
    requires Shaped(demands, |start.retailers|) && NonNegative(demands) && cfg.ltMfgToRetailer >= 1
    requires AllSteady(start.retailers, 0, cfg.ltMfgToRetailer)
    ensures var r := DecentralizedRun(start, demands, mfgName, cfg);
      AllSteady(r.retailers, |demands|, cfg.ltMfgToRetailer)
      && r.tally.ordersCount - start.tally.ordersCount == PositiveTotal(demands)
      && r.tally.transportCost - start.tally.transportCost == PricedDemand(demands, cfg.costTransportDirect)
      && 0 <= r.tally.fillImmediate - start.tally.fillImmediate <= r.tally.demandTotal - start.tally.demandTotal
      && (cfg.costHoldingPerDay >= 0.0 && cfg.costBackorderPerDay >= 0.0 ==>
            r.tally.holdingCost >= start.tally.holdingCost && r.tally.backorderCost >= start.tally.backorderCost)
    decreases |demands|
  {
    if demands != [] {
      var prefix := demands[..|demands| - 1];
      DecentralizedRunSteady(start, prefix, mfgName, cfg);
      DecentralizedDaySteady(DecentralizedRun(start, prefix, mfgName, cfg), |demands|, demands[|demands| - 1], mfgName, cfg);
    }
  }

  /**
   * A centralized run from a steady state with non-negative demands keeps
   * the warehouse and every retailer steady; the warehouse never orders, so
   * the orders are one per positive retailer demand, the transport is the
   * outbound rate on exactly the total demand, the units served lie between
   * none and all of it, and the costs never decrease.
   */
  lemma {:induction false} CentralizedRunSteady(start: Centralized, demands: seq<seq<int>>, mfgName: string, cfg: Config)
    requires Shaped(demands, |start.retailers|) && NonNegative(demands)
    requires cfg.ltMfgToCw >= 1 && cfg.ltCwToRetailer >= 1
    requires Steady(start.cw, 0, cfg.ltMfgToCw) && AllSteady(start.retailers, 0, cfg.ltCwToRetailer)
    ensures var r := CentralizedRun(start, demands, mfgName, cfg);
      Steady(r.cw, |demands|, cfg.ltMfgToCw) && AllSteady(r.retailers, |demands|, cfg.ltCwToRetailer)
      && r.tally.ordersCount - start.tally.ordersCount == PositiveTotal(demands)
      && r.tally.transportCost - start.tally.transportCost == PricedDemand(demands, cfg.costTransportOutbound)
      && 0 <= r.tally.fillImmediate - start.tally.fillImmediate <= r.tally.demandTotal - start.tally.demandTotal
      && (cfg.costHoldingPerDay >= 0.0 && cfg.costBackorderPerDay >= 0.0 ==>
            r.tally.holdingCost >= start.tally.holdingCost && r.tally.backorderCost >= start.tally.backorderCost)
    decreases |demands|
  {
    if demands != [] {
      var prefix := demands[..|demands| - 1];
      CentralizedRunSteady(start, prefix, mfgName, cfg);
      CentralizedDaySteady(CentralizedRun(start, prefix, mfgName, cfg), |demands|, demands[|demands| - 1], mfgName, cfg);
    }
  }

  // ---- The retailers do not interact ---------------------------------------------------

  /** On a decentralized day, retailer k's ledger goes through a one-retailer day on its own demand. */
  lemma DecentralizedDayRetailer(d: Decentralized, day: int, ds: seq<int>, mfgName: string, cfg: Config, k: nat)
    requires |ds| == |d.retailers| && k < |ds|
    ensures DecentralizedDay(d, day, ds, mfgName, cfg).retailers[k]
            == RetailerDay(d.retailers[k], day, ds[k], mfgName, cfg.ltMfgToRetailer, cfg.costTransportDirect)
  {
  }

  /** On a centralized day, retailer k's ledger goes through a one-retailer day on its own demand, ordering from the warehouse. */
  lemma CentralizedDayRetailer(c: Centralized, day: int, ds: seq<int>, mfgName: string, cfg: Config, k: nat)
    requires |ds| == |c.retailers| && k < |ds|
    ensures CentralizedDay(c, day, ds, mfgName, cfg).retailers[k]
            == RetailerDay(c.retailers[k], day, ds[k], c.cw.name, cfg.ltCwToRetailer, cfg.costTransportOutbound)
  {
  }

  /** The one-retailer run on the first n days of a column is the run on n - 1 days followed by day n. */
  lemma ColumnRunStep(l: Ledger, demands: seq<seq<int>>, k: nat, n: nat, src: string, lead: int, cost: real)
    requires forall t :: 0 <= t < |demands| ==> k < |demands[t]|
    requires 1 <= n <= |demands|
    ensures RetailerRun(l, Column(demands[..n], k), src, lead, cost)
            == RetailerDay(RetailerRun(l, Column(demands[..n - 1], k), src, lead, cost), n, demands[n - 1][k], src, lead, cost)
  {
    assert Column(demands[..n], k)[..n - 1] == Column(demands[..n - 1], k);
  }

  /**
   * In a decentralized run each retailer lives through its own days: its
   * ledger is the one-retailer run on its own column of the demand table,
   * whatever the other retailers see.
   */
  lemma {:induction false} DecentralizedRunPerRetailer(start: Decentralized, demands: seq<seq<int>>, mfgName: string,
                                                       cfg: Config, k: nat)
    requires Shaped(demands, |start.retailers|) && k < |start.retailers|
    ensures DecentralizedRun(start, demands, mfgName, cfg).retailers[k]
            == RetailerRun(start.retailers[k], Column(demands, k), mfgName, cfg.ltMfgToRetailer, cfg.costTransportDirect)
    decreases |demands|
  {
    if demands != [] {
      var n := |demands|;
      var prefix := demands[..n - 1];
      DecentralizedRunPerRetailer(start, prefix, mfgName, cfg, k);
      DecentralizedDayRetailer(DecentralizedRun(start, prefix, mfgName, cfg), n, demands[n - 1], mfgName, cfg, k);
      ColumnRunStep(start.retailers[k], demands, k, n, mfgName, cfg.ltMfgToRetailer, cfg.costTransportDirect);
      assert demands[..n] == demands;
    }
  }

  /**
   * In a centralized run each retailer likewise lives through its own days,
   * ordering from the warehouse by name: neither the warehouse's state nor
   * the other retailers' demand reaches it.
   */
  lemma {:induction false} CentralizedRunPerRetailer(start: Centralized, demands: seq<seq<int>>, mfgName: string,
                                                     cfg: Config, k: nat)
    requires Shaped(demands, |start.retailers|) && k < |start.retailers|
    ensures CentralizedRun(start, demands, mfgName, cfg).retailers[k]
            == RetailerRun(start.retailers[k], Column(demands, k), start.cw.name, cfg.ltCwToRetailer, cfg.costTransportOutbound)
    decreases |demands|
  {
    if demands != [] {
      var n := |demands|;
      var prefix := demands[..n - 1];
      CentralizedRunPerRetailer(start, prefix, mfgName, cfg, k);
      CentralizedDayRetailer(CentralizedRun(start, prefix, mfgName, cfg), n, demands[n - 1], mfgName, cfg, k);
      ColumnRunStep(start.retailers[k], demands, k, n, start.cw.name, cfg.ltCwToRetailer, cfg.costTransportOutbound);
      assert demands[..n] == demands;
    }
  }

  /**
   * A decentralized run from any start in which every retailer has
   * non-negative stock and backorder and only valid shipments on their way,
   * with non-negative demands: after every day every retailer is still so,
   * and its stock and backorder are never both positive.
   */
  lemma DecentralizedRunSound(start: Decentralized, demands: seq<seq<int>>, mfgName: string, cfg: Config)
    requires Shaped(demands, |start.retailers|) && NonNegative(demands)
    requires forall k :: 0 <= k < |start.retailers| ==> Sound(start.retailers[k])
    ensures var r := DecentralizedRun(start, demands, mfgName, cfg);
      forall k :: 0 <= k < |r.retailers| ==> Sound(r.retailers[k]) && (demands != [] ==> Settled(r.retailers[k]))
  {
    var r := DecentralizedRun(start, demands, mfgName, cfg);
    forall k | 0 <= k < |r.retailers| ensures Sound(r.retailers[k]) && (demands != [] ==> Settled(r.retailers[k])) {
      DecentralizedRunPerRetailer(start, demands, mfgName, cfg, k);
      RetailerRunSound(start.retailers[k], Column(demands, k), mfgName, cfg.ltMfgToRetailer, cfg.costTransportDirect);
    }
  }

  /**
   * A centralized run from any start in which the warehouse and every
   * retailer have non-negative stock and backorder and only valid shipments
   * on their way, with non-negative demands: after every day every node is
   * still so, and its stock and backorder are never both positive.
   */
  lemma CentralizedRunSound(start: Centralized, demands: seq<seq<int>>, mfgName: string, cfg: Config)
    requires Shaped(demands, |start.retailers|) && NonNegative(demands)
    requires Sound(start.cw) && forall k :: 0 <= k < |start.retailers| ==> Sound(start.retailers[k])
    ensures var r := CentralizedRun(start, demands, mfgName, cfg);
      Sound(r.cw) && (demands != [] ==> Settled(r.cw))
      && forall k :: 0 <= k < |r.retailers| ==> Sound(r.retailers[k]) && (demands != [] ==> Settled(r.retailers[k]))
  {
    var r := CentralizedRun(start, demands, mfgName, cfg);
    CentralizedRunWarehouse(start, demands, mfgName, cfg);
    WarehouseRunSound(start.cw, |demands|, mfgName, cfg.ltMfgToCw, cfg.costTransportInbound);
    forall k | 0 <= k < |r.retailers| ensures Sound(r.retailers[k]) && (demands != [] ==> Settled(r.retailers[k])) {
      CentralizedRetailerSound(start, demands, mfgName, cfg, k);
    }
  }

  /** One retailer of CentralizedRunSound. */
  lemma CentralizedRetailerSound(start: Centralized, demands: seq<seq<int>>, mfgName: string, cfg: Config, k: nat)
    requires Shaped(demands, |start.retailers|) && NonNegative(demands) && k < |start.retailers|
    requires Sound(start.retailers[k])
    ensures var r := CentralizedRun(start, demands, mfgName, cfg).retailers[k];
      Sound(r) && (demands != [] ==> Settled(r))
  {
    CentralizedRunPerRetailer(start, demands, mfgName, cfg, k);
    RetailerRunSound(start.retailers[k], Column(demands, k), start.cw.name, cfg.ltCwToRetailer, cfg.costTransportOutbound);
  }

  // ---- Replications that start from the per-replication reset ---------------------------

  /** Nodes reset to non-negative base stocks are all steady before day 1. */
  lemma ResetAllSteady(ls: seq<Ledger>, lead: int)
    requires forall k :: 0 <= k < |ls| ==> ls[k].baseStock >= 0
    ensures AllSteady(ResetAll(ls), 0, lead)
  {
    forall k | 0 <= k < |ls| ensures Steady(ResetAll(ls)[k], 0, lead) {
      ResetIsSteady(ls[k], lead);
    }
  }

  /** In a centralized run the warehouse lives through its own days, and the retailers' orders leave it untouched. */
  lemma {:induction false} CentralizedRunWarehouse(start: Centralized, demands: seq<seq<int>>, mfgName: string, cfg: Config)
    requires Shaped(demands, |start.retailers|)
    ensures CentralizedRun(start, demands, mfgName, cfg).cw
            == WarehouseRun(start.cw, |demands|, mfgName, cfg.ltMfgToCw, cfg.costTransportInbound)
    decreases |demands|
  {
    if demands != [] {
      CentralizedRunWarehouse(start, demands[..|demands| - 1], mfgName, cfg);
    }
  }

  /**
   * A centralized replication from the reset, with non-negative demands and
   * non-negative base stocks: the warehouse ends exactly as the reset left
   * it, one order is placed per positive retailer demand, the transport is
   * the outbound rate on the total demand, every unit of demand is either
   * served at once or backordered, and the fill rate lies between 0 and 1.
   */
  lemma CentralizedReplicationFromReset(w: Ledger, rs: seq<Ledger>, demands: seq<seq<int>>, mfgName: string, cfg: Config)
    requires Shaped(demands, |rs|) && NonNegative(demands)
    requires cfg.ltMfgToCw >= 1 && cfg.ltCwToRetailer >= 1
    requires w.baseStock >= 0 && forall k :: 0 <= k < |rs| ==> rs[k].baseStock >= 0
    ensures var r := CentralizedRun(Centralized(Reset(w), ResetAll(rs), Zero), demands, mfgName, cfg);
      r.cw == Reset(w)
      && r.tally.ordersCount == PositiveTotal(demands)
      && r.tally.transportCost == Cost(GrandTotal(demands), cfg.costTransportOutbound)
      && r.tally.demandTotal == GrandTotal(demands)
      && r.tally.fillImmediate + r.tally.backordersCreated == GrandTotal(demands)
      && 0 <= r.tally.fillImmediate <= r.tally.demandTotal
      && (cfg.costHoldingPerDay >= 0.0 && cfg.costBackorderPerDay >= 0.0 ==>
            r.tally.holdingCost >= 0.0 && r.tally.backorderCost >= 0.0)
  {
    var start := Centralized(Reset(w), ResetAll(rs), Zero);
    ResetIsSteady(w, cfg.ltMfgToCw);
    ResetAllSteady(rs, cfg.ltCwToRetailer);
    CentralizedRunWarehouse(start, demands, mfgName, cfg);
    WarehouseRunIdle(w, |demands|, mfgName, cfg.ltMfgToCw, cfg.costTransportInbound);
    CentralizedRunBalance(start, demands, mfgName, cfg);
    CentralizedRunSteady(start, demands, mfgName, cfg);
    PricedDemandTotal(demands, cfg.costTransportOutbound);
  }

  /**
   * A decentralized replication from the reset, with non-negative demands and
   * non-negative base stocks: one order per positive demand, the transport
   * is the direct rate on the total demand, every unit of demand is either
   * served at once or backordered, and the fill rate lies between 0 and 1.
   */
  lemma DecentralizedReplicationFromReset(rs: seq<Ledger>, demands: seq<seq<int>>, mfgName: string, cfg: Config)
    requires Shaped(demands, |rs|) && NonNegative(demands) && cfg.ltMfgToRetailer >= 1
    requires forall k :: 0 <= k < |rs| ==> rs[k].baseStock >= 0
    ensures var r := DecentralizedRun(Decentralized(ResetAll(rs), Zero), demands, mfgName, cfg);
      r.tally.ordersCount == PositiveTotal(demands)
      && r.tally.transportCost == Cost(GrandTotal(demands), cfg.costTransportDirect)
      && r.tally.demandTotal == GrandTotal(demands)
      && r.tally.fillImmediate + r.tally.backordersCreated == GrandTotal(demands)
      && 0 <= r.tally.fillImmediate <= r.tally.demandTotal
      && (cfg.costHoldingPerDay >= 0.0 && cfg.costBackorderPerDay >= 0.0 ==>
            r.tally.holdingCost >= 0.0 && r.tally.backorderCost >= 0.0)
  {
    var start := Decentralized(ResetAll(rs), Zero);
    ResetAllSteady(rs, cfg.ltMfgToRetailer);
    DecentralizedRunBalance(start, demands, mfgName, cfg);
    DecentralizedRunSteady(start, demands, mfgName, cfg);
    PricedDemandTotal(demands, cfg.costTransportDirect);
  }
}
