# Inventory centralization simulation: the daily cycle and its ledgers

This project models the core of a discrete-time inventory simulation. The simulation compares two supply-chain designs:

- **Centralized:** the manufacturer (MFG) supplies a central warehouse (CW), and the warehouse supplies the retailers.
- **Decentralized:** every retailer orders straight from the manufacturer.

Every node keeps a ledger with these parts:

- its stock on hand;
- its backorder, which is demand it could not meet;
- the ordered list of shipments on their way to it;
- its base-stock target.

Every day of a replication runs the same steps in a fixed order:

1. arrivals, then backorder clearing;
2. customer demand at the retailers;
3. a base-stock (order-up-to) review at every ordering node;
4. the night's holding and backorder costs.

A `Metrics` object accumulates:

- the three costs;
- the order count;
- the units served at once;
- the total demand;
- the units backordered.

The modules follow the Java files:

- `Shipments` (shipment.dfy): the immutable `Shipment` value and its checked constructor.
- `Nodes` (node_state.dfy): the `NodeState` class, whose fields the simulation updates in place. Its abstract value is a `Ledger`.
- `Accounting` (metrics.dfy): the `Metrics` class. Its abstract value is a `Tally`.
- `DailyCycle` (daily_cycle.dfy): the day's steps as functions on ledgers. It also holds the invariants a node keeps from one day to the next, and states when a shipment is received.
- `Replication` (replication.dfy): one replication of each design, as functions on values. The demand is given as a table, `demands[t][i]` being retailer i's demand on day t + 1. The cost rates and lead times are a `Config`; `Defaults` holds the values of Params.java.
- `Simulation` (simulation.dfy): the helpers and day loops of Simulation.java as methods on `NodeState` and `Metrics` objects. Each method is proved to leave exactly the state that the matching function of `DailyCycle` or `Replication` computes.
- `RunProperties` (run_properties.dfy): what a replication promises.
  - Every unit of demand is counted once and is either served or backordered.
  - From the per-replication reset, every retailer stays at its base stock, with one order per positive demand.
  - The warehouse never orders and never changes.
  - The retailers never affect one another.
  - The fill rate lies between 0 and 1.
  - From any start with non-negative stock and backorder and only valid shipments on their way, and with non-negative demands, every node keeps them non-negative.
- `Coverage` (coverage.dfy): when no daily demand exceeds some bound `dmax` and every retailer's base stock is at least `dmax` times its lead time, no demand is ever backordered.
  - Every unit is served from stock on the day it arrives, so the fill rate is exactly 1 whenever there is demand.
  - The backorder count and the backorder cost stay at zero.
  - This holds in both designs, whatever the warehouse's own base stock. With the lead times of Params.java, a base stock of 4 × `dmax` is enough for both.
  - For example, one retailer with a demand of 100 every day, a lead time of 2 days and a base stock of 200 (= 100 × 2) ends its replication with a fill rate of 1.0 and a backorder cost of 0.0.
  - The argument: after the morning, at most lead − 1 orders are still on their way, one per later arrival day, each of at most `dmax` units. The rest of the base stock, at least `dmax`, is on hand.

The code has one behaviour that the model reproduces as written. In the centralized design, a retailer's order only reads the warehouse's name (Simulation.java:74). The warehouse's stock is never drawn down, although the comment at Simulation.java:193 says that the warehouse ships from stock. `RunProperties.CentralizedRunWarehouse` states this: in a centralized run, the warehouse goes through its own days and nothing else touches it. `DailyCycle.WarehouseRunIdle` then shows that a warehouse fresh from the reset never changes at all.

## Model

| member | source | states |
|---|---|---|
| Shipments.NewShipment | Shipment.java:17-26 | Gives a shipment exactly when the quantity is positive; otherwise gives the IllegalArgument error with the constructor's message. An accepted shipment is valid and carries its five arguments unchanged (the getters). |
| Shipments.TotalQtyOfValid | Shipment.java:18-20 | A list of shipments that passed the positivity check has a non-negative stock on order, positive when the list is not empty. |
| Shipments.SplitByArrival | Simulation.java:26-35 | Arrival processing loses and duplicates nothing: the shipments that stay and the shipments delivered together form exactly the original list, as a multiset. |
| Shipments.SplitTotalQty | Simulation.java:26-35 | The quantities that stay and the quantities delivered add up to the stock on order. |
| Shipments.PendingMembership | Simulation.java:29-32 | A shipment stays in transit on a day exactly when it is in transit and not due that day. |
| Shipments.ArrivingMembership | Simulation.java:29-31 | A shipment is delivered on a day exactly when it is in transit and due that day. |
| Nodes.NodeState.constructor | NodeState.java:20-27 | A new node has the given name, no stock, no backorder, nothing in transit and a base stock of 0. |
| Nodes.NodeState.WithStock | NodeState.java:32-35 | The same as the plain constructor, except that the stock on hand is the given initial stock. |
| Nodes.NodeState.SetOnHand | NodeState.java:47-49 | Sets the stock on hand and changes no other part of the ledger. |
| Nodes.NodeState.SetBackorder | NodeState.java:55-57 | Sets the backorder and changes no other part of the ledger. |
| Nodes.NodeState.SetBaseStock | NodeState.java:67-69 | Sets the base stock and changes no other part of the ledger. |
| Accounting.Metrics.constructor | Metrics.java:8-23 | A fresh accumulator has every cost and every counter at zero. |
| Accounting.Metrics.AddHoldingCost | Metrics.java:53-55 | Adds exactly its argument to the holding cost and changes no other accumulator. |
| Accounting.Metrics.AddBackorderCost | Metrics.java:57-59 | Adds exactly its argument to the backorder cost and changes no other accumulator. |
| Accounting.Metrics.AddTransportCost | Metrics.java:61-63 | Adds exactly its argument to the transport cost and changes no other accumulator. |
| Accounting.Metrics.IncrementOrdersCount | Metrics.java:65-67 | Adds exactly one to the order count and changes no other accumulator. |
| Accounting.Metrics.AddFillImmediate | Metrics.java:69-71 | Adds exactly its argument to the units served at once and changes no other accumulator. |
| Accounting.Metrics.AddDemandTotal | Metrics.java:73-75 | Adds exactly its argument to the total demand and changes no other accumulator. |
| Accounting.Metrics.AddBackordersCreated | Metrics.java:77-79 | Adds exactly its argument to the units backordered and changes no other accumulator. |
| Accounting.Metrics.CalculateFillRate | Metrics.java:85-88 | 0 when there was no demand, instead of a division by zero. Otherwise the rate times the demand is the units served at once. The rate lies in [0, 1] whenever the units served lie between 0 and the demand. |
| Accounting.Metrics.CalculateTotalCost | Metrics.java:93-95 | The total is the holding, backorder and transport costs added together, each counted once. With non-negative parts, the total is at least each part. |
| DailyCycle.Arrive | Simulation.java:26-35 | The in-transit list keeps exactly the shipments not due on `day`, in their order, and the stock on hand grows by the total quantity of the shipments due on `day`. That is exactly the quantity that leaves the list, so the inventory position is unchanged. Valid shipments stay valid and the stock does not fall. Backorder, name and target are untouched. |
| DailyCycle.Clear | Simulation.java:40-46 | Afterwards, stock and backorder are never both positive. Both drop by the same amount: the smaller of the two when both were positive, nothing otherwise. Non-negative values stay non-negative, and the position is unchanged. |
| DailyCycle.Serve | Simulation.java:51-63 | Served plus shortfall is the demand. At most the stock and at most the demand is served. Stock falls by what is served, and the backorder grows by the shortfall. The position drops by exactly the demand. For a non-negative demand, a node with non-negative stock and backorder that is settled stays settled, with a non-negative backorder. |
| DailyCycle.Order | Simulation.java:68-85 | Below target: appends exactly one valid shipment from the supplier, for the shortfall, due on the arrival day, and the position becomes the target. Otherwise the ledger is unchanged. Stock and backorder are never touched. |
| DailyCycle.Reset | Simulation.java:259-262 | Stock at the target, no backorder and nothing in transit, so the position equals the base stock. |
| DailyCycle.Receive | Simulation.java:168-174 | The morning at one node: only the shipments not due today stay in transit. Afterwards stock and backorder are never both positive. Name, target and inventory position are unchanged. |
| DailyCycle.RetailerDay | Simulation.java:171-192 | A retailer's day (arrivals, clearing, its demand, its review against its supplier) keeps the retailer's name and base-stock target. |
| DailyCycle.RetailerDayPosition | Simulation.java:177-192 | Whatever the starting state, a retailer's day leaves its inventory position at the larger of its target and its old position less the demand: the demand lowers the position, and the review brings it back up to the target when it is below. |
| DailyCycle.WarehouseDay | Simulation.java:168-185 | The warehouse's day (arrivals, clearing, its review against the manufacturer) keeps its name and target. |
| DailyCycle.WarehouseDayPosition | Simulation.java:183-185 | Whatever the starting state, a warehouse's day leaves its position at the larger of its target and its old position. |
| DailyCycle.RetailerRun | Simulation.java:166-197 | A retailer's ledger after any number of days keeps its name and target. |
| DailyCycle.WarehouseRun | Simulation.java:166-197 | The warehouse's ledger after any number of days keeps its name and target. |
| DailyCycle.WarehouseRunPosition | Simulation.java:166-185 | After one or more days, whatever the start, the warehouse's position is the larger of its target and its starting position: the first review orders up to the target, and no later review orders again. |
| DailyCycle.OrderValid | Simulation.java:68-76 | A review only ever adds a valid shipment, so a list of valid shipments stays valid. |
| DailyCycle.RetailerDaySound | Simulation.java:168-192 | From any state with non-negative stock and backorder and only valid shipments on their way, with a non-negative demand, a retailer's day ends in such a state, with stock and backorder never both positive. |
| DailyCycle.WarehouseDaySound | Simulation.java:168-185 | The same for the warehouse's day. |
| DailyCycle.RetailerRunSound | Simulation.java:210-234 | A retailer's run from such a state, with non-negative demands, stays in such a state after every day, and is settled once a day has passed. |
| DailyCycle.WarehouseRunSound | Simulation.java:166-197 | The same for the warehouse's run. |
| DailyCycle.ResetIsSteady | Simulation.java:259-262 | A node reset to a non-negative target is in the steady state before day 1. |
| DailyCycle.ReceiveSteady | Simulation.java:168-174 | From a steady state, the morning keeps the node settled. Its position is unchanged, and only shipments due after today remain. |
| DailyCycle.ServeSteady | Simulation.java:177-181 | From a steady state, the stock is non-negative when demand arrives. After a non-negative demand, the node is settled and short of its target by exactly that demand. |
| DailyCycle.RetailerDaySteady | Simulation.java:188-192 | From a steady state, a retailer ends its day steady. The shipments that stay are the ones not due today, plus one shipment for exactly the day's demand, due `lead` days later. |
| DailyCycle.RetailerDayInTransit | Simulation.java:26-85 | At the end of a retailer's day, the in-transit list holds exactly two kinds of shipment: those not due that day, and the one new order, if any, due `lead` days later. |
| DailyCycle.InTransitUntilDue | Simulation.java:30-32 | With a lead time of at least one day, a shipment in transit at the end of day t is still in transit at the end of day u exactly when it did not fall due on days t+1..u. It is received on its due day and not before. |
| DailyCycle.WarehouseDayNoOrder | Simulation.java:183-185 | From a steady state, the warehouse's position is already at its target after the morning, so it places no order and stays steady. |
| DailyCycle.RetailerRunSteady | Simulation.java:166-197 | A retailer that starts steady, with non-negative demands, is steady at the end of every day. |
| DailyCycle.WarehouseRunSteady | Simulation.java:166-197 | A warehouse that starts steady is steady at the end of every day of a run. |
| DailyCycle.WarehouseDayIdle | Simulation.java:183-185 | A settled warehouse at its target with nothing in transit is left exactly as it is by a day. |
| DailyCycle.WarehouseRunIdle | Simulation.java:259-263 | A warehouse fresh from the reset is exactly the same at the end of every day of a centralized run. |
| Replication.ServedTally | Simulation.java:51-62 | Serving a demand records that demand, split into units served at once and units backordered, and no cost or order. From non-negative stock the units served are the smaller of stock and demand. |
| Replication.OrderTally | Simulation.java:68-81 | A review records one order exactly when the node is below its target, with the rate times the units ordered as transport cost, and nothing else. |
| Replication.CostTally | Simulation.java:90-97 | A night records only holding and backorder cost. Neither is negative for non-negative quantities and rates, and there is no holding cost without stock and no backorder cost without backorder. |
| Replication.ServeSumFacts | Simulation.java:177-181 | A day's service adds only to the service counters. The demand counted is the day's demand, served plus backordered is that demand, and with non-negative stock and demand the units served lie between 0 and the demand. |
| Replication.OrderSumFacts | Simulation.java:188-192 | The orders add only to the transport cost and the order count, with at most one order per node. |
| Replication.CostSumFacts | Simulation.java:90-97 | The night adds only to holding and backorder costs. With non-negative rates and settled nodes, both additions are non-negative. |
| Replication.CentralizedTally | Simulation.java:176-196 | Whatever the ledgers, a centralized day's metrics grow by exactly the day's demand, and each unit is counted as served at once or as backordered. |
| Replication.CentralizedDay | Simulation.java:168-196 | A centralized day keeps the number of retailers and the warehouse's name and target. It counts the retailers' demand once, and each unit is either served or backordered. |
| Replication.CentralizedRun | Simulation.java:166-197 | A centralized run of any length keeps the number of retailers and the warehouse's name. |
| Replication.DecentralizedTally | Simulation.java:218-233 | Whatever the ledgers, a decentralized day's metrics grow by exactly the day's demand, and each unit is counted as served at once or as backordered. |
| Replication.DecentralizedDay | Simulation.java:212-233 | A decentralized day keeps the number of retailers. It counts the day's demand once, and each unit is either served or backordered. |
| Replication.DecentralizedRun | Simulation.java:210-234 | A decentralized run of any length keeps the number of retailers. |
| Simulation.InventoryPosition | Simulation.java:16-20 | Stock plus the in-transit quantities minus the backorder. With valid shipments it is at least stock minus backorder, and strictly more when something is in transit. |
| Simulation.ReceiveShipments | Simulation.java:26-35 | The in-place cursor scan leaves the node exactly as `Arrive` says. |
| Simulation.ClearBackordersWithReceipt | Simulation.java:40-46 | Leaves the node exactly as `Clear` says. |
| Simulation.FulfillDemand | Simulation.java:51-63 | Leaves the node as `Serve` says. Adds the units served, the shortfall and the demand to the three service counters. |
| Simulation.PlaceBaseStockOrder | Simulation.java:68-85 | Leaves the node as `Order` says, with the supplier's name as the source. When it orders, it adds `qty * cPerUnit` to the transport cost and one to the order count. A supplier that is a different node from the one reviewed is never changed. |
| Simulation.AccrueDailyCosts | Simulation.java:90-97 | Adds every listed node's stock times the holding rate to the holding cost, and its backorder times the backorder rate to the backorder cost. |
| Simulation.ReceiveAndClear | Simulation.java:169-170 | Leaves the node exactly as `Receive` says: arrivals, then clearing. |
| Simulation.ReceiveAndClearAll | Simulation.java:171-174 | Every retailer goes through arrivals and then clearing. |
| Simulation.ServeAllDemand | Simulation.java:177-181 | Retailer i is served demand i, and the counters grow by the sum of the service tallies. |
| Simulation.PlaceAllOrders | Simulation.java:188-192 | Every retailer is reviewed against the same supplier, and the metrics grow by the sum of the order tallies. |
| Simulation.PlaceNextOrder | Simulation.java:188-191 | Reviews retailer i against the supplier. The retailers before it stay reviewed, those after it stay untouched, and the metrics grow by retailer i's order tally. |
| Simulation.RetailersMorning | Simulation.java:171-181 | Every retailer goes through arrivals and clearing and then serves its own demand. The metrics grow by the service tallies of the morning ledgers. |
| Simulation.SimulateCentralizedDay | Simulation.java:168-196 | The loop body leaves the warehouse, the retailers and the metrics exactly at `CentralizedDay`. |
| Simulation.CentralizedMorning | Simulation.java:168-181 | The warehouse goes through arrivals and clearing, then every retailer goes through arrivals, clearing and its demand. The metrics grow by the service tallies. |
| Simulation.CentralizedEvening | Simulation.java:183-196 | The warehouse is reviewed against the manufacturer at the inbound lead time and rate, then every retailer against the warehouse at the outbound ones. The metrics grow by the warehouse's order tally, the retailers' order tallies and the night's costs of the warehouse and every retailer. |
| Simulation.RetailerOrdersAndCosts | Simulation.java:187-196 | Every retailer is reviewed against the warehouse, and the warehouse is untouched. The metrics grow by the retailers' order tallies and by the night's costs of every node, the warehouse first. |
| Simulation.RunCentralizedReplication | Simulation.java:157-199 | Fresh metrics. After the day loop, the warehouse, the retailers and the metrics are exactly `CentralizedRun` from their starting state and zero metrics. |
| Simulation.SimulateDecentralizedDay | Simulation.java:212-233 | The loop body leaves the retailers and the metrics exactly at `DecentralizedDay`. |
| Simulation.RunDecentralizedReplication | Simulation.java:204-236 | Fresh metrics. After the day loop, the retailers and the metrics are exactly `DecentralizedRun` from their starting state and zero metrics. |
| Simulation.ResetNode | Simulation.java:259-259 | Leaves the node exactly as `Reset` says. |
| Simulation.ResetRetailers | Simulation.java:271-273 | Every retailer is reset and nothing else changes. |
| RunProperties.OrderSumPassThrough | Simulation.java:188-192 | When every node is short by exactly its demand, there is one order per positive demand, and the transport cost is the day's demand at the given rate. |
| RunProperties.DecentralizedDaySteady | Simulation.java:210-234 | From a steady state: the retailers end steady, and there is one order per positive demand at the direct rate. The units served lie between none and the demand. With non-negative holding and backorder rates, the holding and backorder costs do not decrease. |
| RunProperties.CentralizedDaySteady | Simulation.java:166-197 | From a steady state: the warehouse places no order and the retailers end steady. There is one order per positive demand at the outbound rate, the units served lie between none and the demand. With non-negative holding and backorder rates, the holding and backorder costs do not decrease. |
| RunProperties.PricedDemandTotal | Simulation.java:79-79 | Pricing the demand day by day at one rate is pricing the total demand. |
| RunProperties.DecentralizedRunBalance | Simulation.java:204-236 | Over a decentralized run, the demand counted is the table's total, and each unit is served or backordered. |
| RunProperties.CentralizedRunBalance | Simulation.java:157-199 | Over a centralized run, the demand counted is the table's total, and each unit is served or backordered. |
| RunProperties.DecentralizedRunSteady | Simulation.java:204-236 | From a steady state with non-negative demands, every day keeps the retailers steady and orders once per positive demand. The transport cost is the direct rate on the priced demand. Service lies between none and all. With non-negative holding and backorder rates, the holding and backorder costs never decrease. |
| RunProperties.CentralizedRunSteady | Simulation.java:157-199 | The same for the centralized design, with the warehouse steady and never ordering, and the outbound rate. With non-negative holding and backorder rates, the holding and backorder costs never decrease. |
| RunProperties.DecentralizedRunPerRetailer | Simulation.java:213-230 | In a decentralized run, each retailer's ledger is its own one-retailer run on its own column of demand. The other retailers never affect it. |
| RunProperties.CentralizedRunPerRetailer | Simulation.java:171-192 | In a centralized run, each retailer's ledger is its own one-retailer run on its own demand, ordering from the warehouse by name only. |
| RunProperties.CentralizedRunWarehouse | Simulation.java:184-192 | The warehouse of a centralized run goes through its own days only: the retailers' orders never draw down its stock. |
| RunProperties.DecentralizedRunSound | Simulation.java:204-236 | From any start in which every retailer has non-negative stock and backorder and only valid shipments on their way, with non-negative demands, every retailer is still so after every day, with stock and backorder never both positive. |
| RunProperties.CentralizedRunSound | Simulation.java:157-199 | The same for a centralized run, for the warehouse and every retailer. |
| RunProperties.CentralizedRetailerSound | Simulation.java:171-192 | The retailer part of `CentralizedRunSound`, one retailer at a time. |
| RunProperties.ResetAllSteady | Simulation.java:271-273 | Retailers reset to non-negative targets are all steady before day 1. |
| RunProperties.CentralizedReplicationFromReset | Simulation.java:259-263 | After the reset and a centralized replication, the warehouse is exactly as reset. There is one order per positive demand, and the transport cost is the outbound rate on the total demand. All demand is counted, and each unit is served at once or backordered. The fill lies in [0, demand]. With non-negative holding and backorder rates, the holding and backorder costs are non-negative. |
| RunProperties.DecentralizedReplicationFromReset | Simulation.java:271-274 | After the reset and a decentralized replication: one order per positive demand, and the transport cost is the direct rate on the total demand. All demand is counted and each unit is served or backordered. The fill lies in [0, demand]. With non-negative holding and backorder rates, the holding and backorder costs are non-negative. |
| Coverage.PendingIncreasing | Simulation.java:26-35 | Arrival processing keeps the shipments still on their way in their order: if their arrival days were strictly increasing, they still are. |
| Coverage.PendingAtMost | Simulation.java:26-35 | Arrival processing never adds a shipment, so a bound on the quantities on their way still holds afterwards. |
| Coverage.MorningStock | Simulation.java:26-46 | After a covered day, the morning's arrivals and clearing leave no backorder and at least `dmax` on hand. |
| Coverage.RetailerDayCovered | Simulation.java:51-85 | On a covered day with a demand between 0 and `dmax`, the whole demand is served with no shortage. The retailer ends covered: steady, without backorder, with its one new order due `lead` days later, after every earlier order. |
| Coverage.RetailerRunCovered | Simulation.java:210-230 | A retailer that starts covered and sees demands between 0 and `dmax` is covered at the end of every day. |
| Coverage.ResetCovered | Simulation.java:271-273 | A reset retailer whose base stock is at least `dmax` times its lead time starts covered. |
| Coverage.ResetAllCovered | Simulation.java:260-262 | Every reset retailer whose base stock is at least `dmax` times its lead time starts covered. |
| Coverage.RetailersDayCovered | Simulation.java:171-192 | On a covered day, every retailer has at least its demand on hand when the demand comes, and every retailer ends the day covered and without backorder. |
| Coverage.ServeSumNoShortage | Simulation.java:51-62 | When every retailer has its demand on hand, the units served are the whole demand and no backorder is created. |
| Coverage.CostSumNoBackorder | Simulation.java:90-97 | Nodes without backorder add nothing to the backorder cost, whatever the rate. |
| Coverage.DecentralizedTallyNoShortage | Simulation.java:219-233 | When every retailer has its demand on hand and ends the day without backorder, a decentralized day adds the whole demand to the units served, and nothing to the backorders or the backorder cost. |
| Coverage.CentralizedTallyNoShortage | Simulation.java:177-196 | The same for a centralized day, whatever the warehouse orders, when the warehouse too ends without backorder. |
| Coverage.DecentralizedDayCovered | Simulation.java:210-234 | A covered decentralized day keeps every retailer covered and serves the whole day's demand at once. It adds nothing to the backorders or the backorder cost. |
| Coverage.CentralizedDayCovered | Simulation.java:166-197 | A covered centralized day keeps the warehouse without backorder and every retailer covered. It serves the whole day's demand at once and adds nothing to the backorders or the backorder cost. |
| Coverage.DecentralizedRunCovered | Simulation.java:204-236 | A decentralized run that starts covered, with demands between 0 and `dmax`, serves the table's whole demand at once. It leaves the backorders and the backorder cost where they started. |
| Coverage.CentralizedRunCovered | Simulation.java:157-199 | The same for a centralized run, whose warehouse starts without backorder. |
| Coverage.DecentralizedReplicationNoShortage | Simulation.java:271-274 | After the reset, with demands between 0 and `dmax` and base stocks of at least `dmax` times the manufacturer's lead time, a decentralized replication serves all demand at once: units served = demand counted = the table's total. It records no backorder and no backorder cost. |
| Coverage.CentralizedReplicationNoShortage | Simulation.java:259-263 | After the reset, with demands between 0 and `dmax` and retailer base stocks of at least `dmax` times the warehouse's lead time, a centralized replication serves all demand at once and records no backorder and no backorder cost, whatever the warehouse's base stock. |
| Coverage.NoShortageAtDefaults | Params.java:27-29 | With the lead times of Params.java (`Defaults`), demands between 0 and `dmax` and retailer base stocks of at least 4 × `dmax`, both designs serve all demand at once from the reset and create no backorder. |

## Left out

- drawDailyDemand (Simulation.java:104-115) uses a Gaussian random source and double rounding. The replications take a demand table instead. The only guarantee kept from it is that demands are non-negative: the methods take `seq<seq<nat>>`, and the lemmas require `NonNegative`.
- computeBaseStocks (Simulation.java:120-152) is double arithmetic with square roots and rounding. Each node's base stock is taken as a given integer. The lemmas from the reset require it to be non-negative.
- The cost accumulators, the fill rate, `Shipment.transportCostPerUnit` and the cost rates of Params.java (the `Config` fields `costHoldingPerDay`, `costBackorderPerDay`, `costTransportInbound`, `costTransportOutbound` and `costTransportDirect`) are Java doubles. The model uses exact reals, so it makes no claim about floating-point rounding. `Accounting.Cost` is the exact product of units and rate, and `Accounting.Metrics.CalculateFillRate` (Metrics.java:85-88) is the exact quotient of units served by demand, where Java divides two doubles.
- Java `int` is 32 bits wide. The model's integers are unbounded, so overflow of the counters, the stocks or the inventory position is not modelled.
- calculateAverages, summarizeResults and SummaryMetrics.java (Simulation.java:290-359) do floating-point averaging and console output. They are not part of this model.
- runExperiment and main (Simulation.java:241-288) drive the replications and print. Only their reset (lines 259-262 and 271-273) is modelled. The loop over replications and the lists of results are not.
- Params.java becomes the `Config` parameter and the `Defaults` constant. T_DAYS is the length of the demand table, and N_RETAILERS is the length of the retailer list. The z-score helper is used only by computeBaseStocks.
- The `seed` parameters of the replication methods are unused in the source and are dropped.
- The `ordersPlacedToday` field and its getter and setter are never used by the simulation.
- The getters are not separate members. Shipment's getters are the datatype's fields, and the Metrics and NodeState getters are direct field reads. `getInTransit` returns the node's own list; the model's methods reassign the node's `inTransit` field, which has the same effect on the node.
- toString (NodeState.java:80-86) only formats text. Its inventory position uses the formula of `Ledger.Position`, which `Simulation.InventoryPosition` is proved equal to.
- Simulation.RunCentralizedReplication and Simulation.RunDecentralizedReplication do not assume the reset. They are exact for any starting state. Non-negative stock and backorder are proved from any start that has them (`RunProperties.CentralizedRunSound`, `RunProperties.DecentralizedRunSound`). The steady state, the order counts and the transport costs are proved from a steady start, which the reset gives.
- The steady-state and reset lemmas require lead times of at least one day. The source's constants (2, 1 and 4) meet this; a zero lead time is not covered.
