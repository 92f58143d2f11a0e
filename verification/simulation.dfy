/**
 * The simulation engine (Simulation.java) on NodeState and Metrics objects.
 * Every helper and every loop is proved to compute exactly the value-level
 * day of module DailyCycle and the replication of module Replication; the
 * daily demand draws arrive as a table instead of from a random source.
 */
module Simulation {
  import opened Shipments
  import opened Nodes
  import opened Accounting
  import opened DailyCycle
  import opened Replication

  /**
   * Inventory position: stock on hand plus the quantities still in transit
   * minus the backorder. Shipments on their way only ever add to it.
   */
  function InventoryPosition(node: NodeState): (ip: int)
    reads node
    ensures ip == node.AsLedger().Position()
    ensures AllValid(node.inTransit) ==> ip >= node.onHand - node.backorder
    ensures AllValid(node.inTransit) && node.inTransit != [] ==> ip > node.onHand - node.backorder
  {
    TotalQtyOfValid(node.inTransit);
    var inTransitQty := TotalQty(node.inTransit);
    node.onHand + inTransitQty - node.backorder
  }

  /**
   * Arrivals: walks the node's own in-transit list with a cursor, adding the
   * quantity of every shipment due today to the stock on hand and removing
   * that shipment from the list in place.
   */
  method ReceiveShipments(node: NodeState, day: int)
    modifies node
    ensures node.AsLedger() == Arrive(old(node.AsLedger()), day)
  {
    ghost var s := node.inTransit;
    ghost var i := 0;
    var j := 0;
    while j < |node.inTransit|
      invariant 0 <= i <= |s|
      invariant node.inTransit == Pending(s[..i], day) + s[i..]
      invariant j == |Pending(s[..i], day)| && |node.inTransit| == j + |s| - i
      invariant node.onHand == old(node.onHand) + TotalQty(Arriving(s[..i], day))
      invariant node.backorder == old(node.backorder) && node.baseStock == old(node.baseStock)
      decreases |node.inTransit| - j
    {
      ScanStep(s, i, day, node.inTransit, j);
      var sh := node.inTransit[j];
      if sh.arriveDay == day {
        node.SetOnHand(node.onHand + sh.qty);
        node.inTransit := node.inTransit[..j] + node.inTransit[j + 1..];
      } else {
        j := j + 1;
      }
      i := i + 1;
    }
    assert s[..i] == s;
  }

  /** Backorder clearing: stock and backorder both drop by the smaller of the two. */
  method ClearBackordersWithReceipt(node: NodeState)
    modifies node
    ensures node.AsLedger() == Clear(old(node.AsLedger()))
  {
    if node.backorder > 0 && node.onHand > 0 {
      var cleared := Min(node.onHand, node.backorder);
      node.SetOnHand(node.onHand - cleared);
      node.SetBackorder(node.backorder - cleared);
    }
  }

  /** Demand service: serves from stock, backorders the rest, and records all three counts. */
  method FulfillDemand(node: NodeState, demand: int, metrics: Metrics)
    modifies node, metrics
    ensures node.AsLedger() == Serve(old(node.AsLedger()), demand).ledger
    ensures metrics.AsTally() == Plus(old(metrics.AsTally()), ServedTally(old(node.AsLedger()), demand))
  {
    var served := Min(node.onHand, demand);
    node.SetOnHand(node.onHand - served);
    metrics.AddFillImmediate(served);
    var shortage := 0;
    if served < demand {
      shortage := demand - served;
      node.SetBackorder(node.backorder + shortage);
    }
    metrics.AddBackordersCreated(shortage);
    metrics.AddDemandTotal(demand);
  }

  /**
   * The base-stock review: orders from `supplier` what brings the position
   * back to the target, due `lead` days after `today`, and records the
   * transport cost and the order event. Only the supplier's name is used: its
   * stock is never drawn down.
   */
  method PlaceBaseStockOrder(node: NodeState, supplier: NodeState, lead: int, cPerUnit: real, today: int, metrics: Metrics)
    modifies node, metrics
    ensures node.AsLedger() == Order(old(node.AsLedger()), supplier.name, ArrivalDay(today, lead), cPerUnit)
    ensures metrics.AsTally() == Plus(old(metrics.AsTally()), OrderTally(old(node.AsLedger()), cPerUnit))
    ensures supplier != node ==> supplier.AsLedger() == old(supplier.AsLedger())
  {
    var ip := InventoryPosition(node);
    var qty := node.baseStock - ip;
    if qty > 0 {
      var sh := NewShipment(qty, supplier.name, node.name, today + lead, cPerUnit).value;
      node.inTransit := node.inTransit + [sh];
      metrics.AddTransportCost(Cost(qty, cPerUnit));
      metrics.IncrementOrdersCount();
    }
  }

  /** The night's costs: every node pays for its stock on hand and for its backorder. */
  method AccrueDailyCosts(allNodes: seq<NodeState>, holdingRate: real, backorderRate: real, metrics: Metrics)
    modifies metrics
    ensures metrics.AsTally() == Plus(old(metrics.AsTally()), CostSum(Ledgers(allNodes), holdingRate, backorderRate, |allNodes|))
  {
    ghost var ls := Ledgers(allNodes);
    ghost var t0 := metrics.AsTally();
    for i := 0 to |allNodes|
      invariant metrics.AsTally() == Plus(t0, CostSum(ls, holdingRate, backorderRate, i))
    {
      ghost var before := metrics.AsTally();
      var n := allNodes[i];
      metrics.AddHoldingCost(Cost(n.onHand, holdingRate));
      metrics.AddBackorderCost(Cost(n.backorder, backorderRate));
      Accumulate(t0, before, metrics.AsTally(), CostSum(ls, holdingRate, backorderRate, i),
                 CostSum(ls, holdingRate, backorderRate, i + 1), CostTally(ls[i], holdingRate, backorderRate));
    }
  }

  /** Arrivals, then backorder clearing, at one node. */
  method ReceiveAndClear(node: NodeState, day: int)
    modifies node
    ensures node.AsLedger() == Receive(old(node.AsLedger()), day)
  {
    ReceiveShipments(node, day);
    ClearBackordersWithReceipt(node);
  }

  /** Step 1 of a day for the retailers: arrivals, then backorder clearing, one retailer after another. */
  method ReceiveAndClearAll(retailers: seq<NodeState>, day: int)
    requires Distinct(retailers)
    modifies set r | r in retailers
    ensures Ledgers(retailers) == ReceiveAll(old(Ledgers(retailers)), day)
  {
    ghost var ls := Ledgers(retailers);
    for i := 0 to |retailers|
      invariant forall k :: 0 <= k < i ==> retailers[k].AsLedger() == Receive(ls[k], day)
      invariant forall k :: i <= k < |retailers| ==> retailers[k].AsLedger() == ls[k]
    {
      ReceiveAndClear(retailers[i], day);
    }
  }

  /** Step 2 of a day: retailer `i` meets demand `ds[i]`. */
  method ServeAllDemand(retailers: seq<NodeState>, ds: seq<int>, metrics: Metrics)
    requires Distinct(retailers) && |ds| == |retailers|
    modifies (set r | r in retailers), metrics
    ensures Ledgers(retailers) == ServeAll(old(Ledgers(retailers)), ds)
    ensures metrics.AsTally() == Plus(old(metrics.AsTally()), ServeSum(old(Ledgers(retailers)), ds, |ds|))
  {
    ghost var ls := Ledgers(retailers);
    ghost var t0 := metrics.AsTally();
    for i := 0 to |retailers|
      invariant forall k :: 0 <= k < i ==> retailers[k].AsLedger() == Serve(ls[k], ds[k]).ledger
      invariant forall k :: i <= k < |retailers| ==> retailers[k].AsLedger() == ls[k]
      invariant metrics.AsTally() == Plus(t0, ServeSum(ls, ds, i))
    {
      ghost var before := metrics.AsTally();
      FulfillDemand(retailers[i], ds[i], metrics);
      Accumulate(t0, before, metrics.AsTally(), ServeSum(ls, ds, i), ServeSum(ls, ds, i + 1), ServedTally(ls[i], ds[i]));
    }
  }

  /** The retailers' base-stock reviews, each ordering from `supplier`. */
  method PlaceAllOrders(retailers: seq<NodeState>, supplier: NodeState, lead: int, cPerUnit: real, today: int, metrics: Metrics)
    requires Distinct(retailers)
    modifies (set r | r in retailers), metrics
    ensures Ledgers(retailers) == OrderAll(old(Ledgers(retailers)), supplier.name, ArrivalDay(today, lead), cPerUnit)
    ensures metrics.AsTally() == Plus(old(metrics.AsTally()), OrderSum(old(Ledgers(retailers)), cPerUnit, |retailers|))
  {
    ghost var ls := Ledgers(retailers);
    ghost var t0 := metrics.AsTally();
    ghost var src, arrive := supplier.name, ArrivalDay(today, lead);
    for i := 0 to |retailers|
      invariant forall k :: 0 <= k < i ==> retailers[k].AsLedger() == Order(ls[k], src, arrive, cPerUnit)
      invariant forall k :: i <= k < |retailers| ==> retailers[k].AsLedger() == ls[k]
      invariant metrics.AsTally() == Plus(t0, OrderSum(ls, cPerUnit, i))
    {
      PlaceNextOrder(retailers, i, supplier, lead, cPerUnit, today, metrics, ls, t0);
    }
  }

  /** Iteration i of PlaceAllOrders: retailer i's review, the others untouched. */
  method PlaceNextOrder(retailers: seq<NodeState>, i: nat, supplier: NodeState, lead: int, cPerUnit: real, today: int,
                        metrics: Metrics, ghost ls: seq<Ledger>, ghost t0: Tally)
    requires Distinct(retailers) && i < |retailers| == |ls|
    requires forall k :: 0 <= k < i ==> retailers[k].AsLedger() == Order(ls[k], supplier.name, ArrivalDay(today, lead), cPerUnit)
    requires forall k :: i <= k < |retailers| ==> retailers[k].AsLedger() == ls[k]
    requires metrics.AsTally() == Plus(t0, OrderSum(ls, cPerUnit, i))
    modifies retailers[i], metrics
    ensures forall k :: 0 <= k < i + 1 ==> retailers[k].AsLedger() == Order(ls[k], supplier.name, ArrivalDay(today, lead), cPerUnit)
    ensures forall k :: i + 1 <= k < |retailers| ==> retailers[k].AsLedger() == ls[k]
    ensures metrics.AsTally() == Plus(t0, OrderSum(ls, cPerUnit, i + 1))
  {
    ghost var before := metrics.AsTally();
    PlaceBaseStockOrder(retailers[i], supplier, lead, cPerUnit, today, metrics);
    Accumulate(t0, before, metrics.AsTally(), OrderSum(ls, cPerUnit, i), OrderSum(ls, cPerUnit, i + 1), OrderTally(ls[i], cPerUnit));
  }

  /** The retailers' part of a morning: arrivals and clearing, then demand. */
  method RetailersMorning(retailers: seq<NodeState>, day: int, ds: seq<int>, metrics: Metrics)
    requires Distinct(retailers) && |ds| == |retailers|
    modifies (set r | r in retailers), metrics
    ensures Ledgers(retailers) == ServeAll(ReceiveAll(old(Ledgers(retailers)), day), ds)
    ensures metrics.AsTally() == Plus(old(metrics.AsTally()), ServeSum(ReceiveAll(old(Ledgers(retailers)), day), ds, |ds|))
  {
    ReceiveAndClearAll(retailers, day);
    ServeAllDemand(retailers, ds, metrics);
  }

  /**
   * The body of the centralized day loop: arrivals and clearing at the
   * warehouse and at every retailer, retailer demand, the warehouse's review
   * against the manufacturer, the retailers' reviews against the warehouse,
   * then the costs of every node in `allNodes`.
   */
  method SimulateCentralizedDay(day: int, ds: seq<int>, retailers: seq<NodeState>, cw: NodeState, mfg: NodeState,
                                allNodes: seq<NodeState>, cfg: Config, metrics: Metrics)
    requires Distinct(retailers) && cw !in retailers && |ds| == |retailers|
    requires allNodes == [cw] + retailers
    modifies (set r | r in retailers), cw, metrics
    ensures Centralized(cw.AsLedger(), Ledgers(retailers), metrics.AsTally())
            == CentralizedDay(Centralized(old(cw.AsLedger()), old(Ledgers(retailers)), old(metrics.AsTally())), day, ds, mfg.name, cfg)
  {
    ghost var c := Centralized(cw.AsLedger(), Ledgers(retailers), metrics.AsTally());
    CentralizedMorning(day, ds, retailers, cw, metrics);
    ghost var cwMorning := cw.AsLedger();
    ghost var served := Ledgers(retailers);
    ghost var t1 := metrics.AsTally();
    CentralizedEvening(day, retailers, cw, mfg, allNodes, cfg, metrics);
    CentralizedDaySteps(c, day, ds, mfg.name, cfg, cwMorning, ReceiveAll(c.retailers, day), served, cw.AsLedger(),
                        Ledgers(retailers), Ledgers(allNodes), t1, metrics.AsTally());
  }

  /** The morning of a centralized day: arrivals and clearing at the warehouse, then the retailers' morning. */
  method CentralizedMorning(day: int, ds: seq<int>, retailers: seq<NodeState>, cw: NodeState, metrics: Metrics)
    requires Distinct(retailers) && cw !in retailers && |ds| == |retailers|
    modifies (set r | r in retailers), cw, metrics
    ensures cw.AsLedger() == Receive(old(cw.AsLedger()), day)
    ensures Ledgers(retailers) == ServeAll(ReceiveAll(old(Ledgers(retailers)), day), ds)
    ensures metrics.AsTally() == Plus(old(metrics.AsTally()), ServeSum(ReceiveAll(old(Ledgers(retailers)), day), ds, |ds|))
  {
    ghost var ls := Ledgers(retailers);
    ReceiveAndClear(cw, day);
    assert Ledgers(retailers) == ls;
    RetailersMorning(retailers, day, ds, metrics);
  }

  /**
   * The evening of a centralized day: the warehouse's review against the
   * manufacturer, then the retailers' reviews and the costs.
   */
  method CentralizedEvening(day: int, retailers: seq<NodeState>, cw: NodeState, mfg: NodeState,
                            allNodes: seq<NodeState>, cfg: Config, metrics: Metrics)
    requires Distinct(retailers) && cw !in retailers
    requires allNodes == [cw] + retailers
    modifies (set r | r in retailers), cw, metrics
    ensures cw.AsLedger() == Order(old(cw.AsLedger()), mfg.name, ArrivalDay(day, cfg.ltMfgToCw), cfg.costTransportInbound)
    ensures Ledgers(retailers) == OrderAll(old(Ledgers(retailers)), cw.name, ArrivalDay(day, cfg.ltCwToRetailer), cfg.costTransportOutbound)
    ensures Ledgers(allNodes) == [cw.AsLedger()] + Ledgers(retailers)
    ensures metrics.AsTally() == Plus(Plus(Plus(old(metrics.AsTally()), OrderTally(old(cw.AsLedger()), cfg.costTransportInbound)),
                                           OrderSum(old(Ledgers(retailers)), cfg.costTransportOutbound, |retailers|)),
                                      CostSum(Ledgers(allNodes), cfg.costHoldingPerDay, cfg.costBackorderPerDay, |allNodes|))
  {
    PlaceBaseStockOrder(cw, mfg, cfg.ltMfgToCw, cfg.costTransportInbound, day, metrics);
    RetailerOrdersAndCosts(day, retailers, cw, allNodes, cfg, metrics);
  }

  /**
   * The end of a centralized day, after the warehouse's review: the
   * retailers' reviews against the warehouse, then the costs of every node in
   * `allNodes`, the warehouse first.
   */
  method RetailerOrdersAndCosts(day: int, retailers: seq<NodeState>, cw: NodeState, allNodes: seq<NodeState>,
                                cfg: Config, metrics: Metrics)
    requires Distinct(retailers) && cw !in retailers
    requires allNodes == [cw] + retailers
    modifies (set r | r in retailers), metrics
    ensures Ledgers(retailers) == OrderAll(old(Ledgers(retailers)), cw.name, ArrivalDay(day, cfg.ltCwToRetailer), cfg.costTransportOutbound)
    ensures Ledgers(allNodes) == [cw.AsLedger()] + Ledgers(retailers)
    ensures metrics.AsTally() == Plus(Plus(old(metrics.AsTally()), OrderSum(old(Ledgers(retailers)), cfg.costTransportOutbound, |retailers|)),
                                      CostSum(Ledgers(allNodes), cfg.costHoldingPerDay, cfg.costBackorderPerDay, |allNodes|))
  {
    PlaceAllOrders(retailers, cw, cfg.ltCwToRetailer, cfg.costTransportOutbound, day, metrics);
    LedgersCons(cw, retailers);
    AccrueDailyCosts(allNodes, cfg.costHoldingPerDay, cfg.costBackorderPerDay, metrics);
  }

  /**
   * One replication of the centralized design over the days of `demands`,
   * `demands[t][i]` being retailer i's demand on day t + 1. The nodes start in
   * whatever state the caller left them; the metrics start at zero.
   */
  method RunCentralizedReplication(demands: seq<seq<nat>>, retailers: seq<NodeState>, cw: NodeState, mfg: NodeState, cfg: Config)
    returns (metrics: Metrics)
    requires Distinct(retailers) && cw !in retailers && Shaped(demands, |retailers|)
    modifies (set r | r in retailers), cw
    ensures fresh(metrics)
    ensures Centralized(cw.AsLedger(), Ledgers(retailers), metrics.AsTally())
            == CentralizedRun(Centralized(old(cw.AsLedger()), old(Ledgers(retailers)), Zero), demands, mfg.name, cfg)
  {
    metrics := new Metrics();
    var allNodes := [cw] + retailers;
    ghost var start := Centralized(cw.AsLedger(), Ledgers(retailers), Zero);
    for day := 1 to |demands| + 1
      invariant Centralized(cw.AsLedger(), Ledgers(retailers), metrics.AsTally()) == CentralizedRun(start, demands[..day - 1], mfg.name, cfg)
    {
      ghost var before := Centralized(cw.AsLedger(), Ledgers(retailers), metrics.AsTally());
      SimulateCentralizedDay(day, demands[day - 1], retailers, cw, mfg, allNodes, cfg, metrics);
      CentralizedRunStep(start, demands, day, mfg.name, cfg, before, Centralized(cw.AsLedger(), Ledgers(retailers), metrics.AsTally()));
    }
    assert demands[..|demands|] == demands;
  }

  /** The body of the decentralized day loop: arrivals and clearing, demand, orders to the manufacturer, costs. */
  method SimulateDecentralizedDay(day: int, ds: seq<int>, retailers: seq<NodeState>, mfg: NodeState, cfg: Config, metrics: Metrics)
    requires Distinct(retailers) && |ds| == |retailers|
    modifies (set r | r in retailers), metrics
    ensures Decentralized(Ledgers(retailers), metrics.AsTally())
            == DecentralizedDay(Decentralized(old(Ledgers(retailers)), old(metrics.AsTally())), day, ds, mfg.name, cfg)
  {
    ghost var d := Decentralized(Ledgers(retailers), metrics.AsTally());
    ReceiveAndClearAll(retailers, day);
    ghost var morning := Ledgers(retailers);
    ServeAllDemand(retailers, ds, metrics);
    ghost var served := Ledgers(retailers);
    ghost var t1 := metrics.AsTally();
    PlaceAllOrders(retailers, mfg, cfg.ltMfgToRetailer, cfg.costTransportDirect, day, metrics);
    ghost var evening := Ledgers(retailers);
    ghost var t2 := metrics.AsTally();
    AccrueDailyCosts(retailers, cfg.costHoldingPerDay, cfg.costBackorderPerDay, metrics);
    DecentralizedDaySteps(d, day, ds, mfg.name, cfg, morning, served, evening, t1, t2, metrics.AsTally());
  }

  /** One replication of the decentralized design: the retailers order straight from the manufacturer. */
  method RunDecentralizedReplication(demands: seq<seq<nat>>, retailers: seq<NodeState>, mfg: NodeState, cfg: Config)
    returns (metrics: Metrics)
    requires Distinct(retailers) && Shaped(demands, |retailers|)
    modifies set r | r in retailers
    ensures fresh(metrics)
    ensures Decentralized(Ledgers(retailers), metrics.AsTally())
            == DecentralizedRun(Decentralized(old(Ledgers(retailers)), Zero), demands, mfg.name, cfg)
  {
    metrics := new Metrics();
    ghost var start := Decentralized(Ledgers(retailers), Zero);
    for day := 1 to |demands| + 1
      invariant Decentralized(Ledgers(retailers), metrics.AsTally()) == DecentralizedRun(start, demands[..day - 1], mfg.name, cfg)
    {
      ghost var before := Decentralized(Ledgers(retailers), metrics.AsTally());
      SimulateDecentralizedDay(day, demands[day - 1], retailers, mfg, cfg, metrics);
      DecentralizedRunStep(start, demands, day, mfg.name, cfg, before, Decentralized(Ledgers(retailers), metrics.AsTally()));
    }
    assert demands[..|demands|] == demands;
  }

  /** The per-replication reset of one node: stock at its base stock, no backorder, nothing in transit. */
  method ResetNode(node: NodeState)
    modifies node
    ensures node.AsLedger() == Reset(old(node.AsLedger()))
  {
    node.SetOnHand(node.baseStock);
    node.SetBackorder(0);
    node.inTransit := [];
  }

  /** The reset applied to every retailer in turn. */
  method ResetRetailers(retailers: seq<NodeState>)
    requires Distinct(retailers)
    modifies set r | r in retailers
    ensures Ledgers(retailers) == ResetAll(old(Ledgers(retailers)))
  {
    ghost var ls := Ledgers(retailers);
    for i := 0 to |retailers|
      invariant forall k :: 0 <= k < i ==> retailers[k].AsLedger() == Reset(ls[k])
      invariant forall k :: i <= k < |retailers| ==> retailers[k].AsLedger() == ls[k]
    {
      ResetNode(retailers[i]);
    }
  }
}
