/**
 * The daily operating cycle on node ledgers, as values: arrivals, backorder
 * clearing, demand service and the base-stock (order-up-to) rule of
 * Simulation.java, and the invariants a node keeps from one day to the next.
 * The methods of module Simulation are proved to compute exactly these.
 */
module DailyCycle {
  import opened Shipments
  import opened Nodes

  function Min(a: int, b: int): int { if a <= b then a else b }

  function Max(a: int, b: int): int { if a >= b then a else b }

  /** The day a shipment ordered on `today` with lead time `lead` becomes available. */
  function ArrivalDay(today: int, lead: int): int { today + lead }

  /** Membership in the survivors of arrival processing, for every shipment at once. */
  lemma PendingMembershipAll(s: seq<Shipment>, day: int)
    ensures forall sh :: sh in Pending(s, day) <==> sh in s && sh.arriveDay != day
  {
    forall sh ensures sh in Pending(s, day) <==> sh in s && sh.arriveDay != day {
      PendingMembership(s, day, sh);
    }
  }

  /** What Arrive relies on about splitting a list of shipments by arrival day. */
  lemma ArrivalFacts(s: seq<Shipment>, day: int)
    ensures TotalQty(Pending(s, day)) + TotalQty(Arriving(s, day)) == TotalQty(s)
    ensures AllValid(s) ==> AllValid(Pending(s, day)) && TotalQty(Arriving(s, day)) >= 0
  {
    SplitTotalQty(s, day);
    if AllValid(s) {
      SplitValid(s, day);
      TotalQtyOfValid(Arriving(s, day));
    }
  }

  /**
   * Arrivals on `day`: every shipment due that day leaves the in-transit
   * list and its quantity joins the stock on hand; the rest stay, in order.
   */
  function Arrive(l: Ledger, day: int): (r: Ledger)
    ensures r.inTransit == Pending(l.inTransit, day)
    ensures r.onHand == l.onHand + TotalQty(Arriving(l.inTransit, day))
    ensures r.onHand - l.onHand == TotalQty(l.inTransit) - TotalQty(r.inTransit)
    ensures r.Position() == l.Position()
    ensures AllValid(l.inTransit) ==> AllValid(r.inTransit) && r.onHand >= l.onHand
    ensures r.name == l.name && r.backorder == l.backorder && r.baseStock == l.baseStock
  {
    ArrivalFacts(l.inTransit, day);
    l.(onHand := l.onHand + TotalQty(Arriving(l.inTransit, day)), inTransit := Pending(l.inTransit, day))
  }

  /**
   * Backorder clearing: when there is both stock and unmet demand, the
   * smaller of the two is used up on both sides. Afterwards the node never
   * holds stock and backorder at once.
   */
  function Clear(l: Ledger): (r: Ledger)
    ensures !(r.onHand > 0 && r.backorder > 0)
    ensures l.onHand - r.onHand == l.backorder - r.backorder
    ensures l.onHand > 0 && l.backorder > 0 ==> l.onHand - r.onHand == Min(l.onHand, l.backorder)
    ensures !(l.onHand > 0 && l.backorder > 0) ==> r == l
    ensures l.onHand >= 0 && l.backorder >= 0 ==> r.onHand >= 0 && r.backorder >= 0
    ensures r.Position() == l.Position()
    ensures r.name == l.name && r.inTransit == l.inTransit && r.baseStock == l.baseStock
  {
    if l.backorder > 0 && l.onHand > 0 then
      var cleared := Min(l.onHand, l.backorder);
      l.(onHand := l.onHand - cleared, backorder := l.backorder - cleared)
    else
      l
  }

  /** The outcome of one retailer's demand: its new ledger, the units served and the shortfall. */
  datatype Service = Service(ledger: Ledger, served: int, shortage: int)

  /**
   * Demand service: serve what the stock allows, turn the rest into new
   * backorder. Every unit of demand is either served or backordered, and
   * the inventory position drops by exactly the demand.
   */
  function Serve(l: Ledger, demand: int): (r: Service)
    ensures r.served + r.shortage == demand
    ensures r.served <= demand && r.served <= l.onHand && r.shortage >= 0
    ensures r.served == l.onHand || r.served == demand
    ensures l.onHand >= 0 && demand >= 0 ==> r.served >= 0
    ensures r.ledger.onHand == l.onHand - r.served && r.ledger.onHand >= 0
    ensures r.ledger.backorder == l.backorder + r.shortage
    ensures r.ledger.Position() == l.Position() - demand
    ensures demand >= 0 && l.onHand >= 0 && l.backorder >= 0 && !(l.onHand > 0 && l.backorder > 0) ==>
              r.ledger.backorder >= 0 && !(r.ledger.onHand > 0 && r.ledger.backorder > 0)
    ensures r.ledger.name == l.name && r.ledger.inTransit == l.inTransit && r.ledger.baseStock == l.baseStock
  {
    var served := Min(l.onHand, demand);
    var shortage := if served < demand then demand - served else 0;
    Service(l.(onHand := l.onHand - served, backorder := l.backorder + shortage), served, shortage)
  }

  /** How far the inventory position falls short of the base stock. */
  function OrderQty(l: Ledger): int
  {
    l.baseStock - l.Position()
  }

  /**
   * The base-stock rule: when the position is below the target, append one
   * shipment from `src` for exactly the difference, due on `arriveDay`;
   * otherwise change nothing. Afterwards the position is at least the target,
   * and exactly the target when an order was placed.
   */
  function Order(l: Ledger, src: string, arriveDay: int, cost: real): (r: Ledger)
    ensures r.Position() == Max(l.baseStock, l.Position())
    ensures OrderQty(l) > 0 ==>
              |r.inTransit| == |l.inTransit| + 1 && r.inTransit[..|l.inTransit|] == l.inTransit
              && var sh := r.inTransit[|l.inTransit|];
                 sh.Valid() && sh.qty == OrderQty(l) && sh.src == src && sh.dst == l.name
                 && sh.arriveDay == arriveDay && sh.transportCostPerUnit == cost
    ensures OrderQty(l) <= 0 ==> r == l
    ensures r.name == l.name && r.onHand == l.onHand && r.backorder == l.backorder && r.baseStock == l.baseStock
  {
    var qty := OrderQty(l);
    if qty > 0 then
      var sh := Shipment(qty, src, l.name, arriveDay, cost);
      TotalQtyAppend(l.inTransit, [sh]);
      assert TotalQty([sh]) == qty;
      l.(inTransit := l.inTransit + [sh])
    else
      l
  }

  /** The morning of a day: arrivals, then backorder clearing. */
  function Receive(l: Ledger, day: int): (r: Ledger)
    ensures r.name == l.name && r.baseStock == l.baseStock && r.Position() == l.Position()
    ensures r.inTransit == Pending(l.inTransit, day)
    ensures !(r.onHand > 0 && r.backorder > 0)
  {
    Clear(Arrive(l, day))
  }

  /** One retailer's day: arrivals and clearing, then demand, then the order to its supplier. */
  function RetailerDay(l: Ledger, day: int, demand: int, src: string, lead: int, cost: real): (r: Ledger)
    ensures r.name == l.name && r.baseStock == l.baseStock
  {
    Order(Serve(Receive(l, day), demand).ledger, src, ArrivalDay(day, lead), cost)
  }

  /** The warehouse's day: arrivals and clearing, no customer demand, then its order to the manufacturer. */
  function WarehouseDay(l: Ledger, day: int, src: string, lead: int, cost: real): (r: Ledger)
    ensures r.name == l.name && r.baseStock == l.baseStock
  {
    Order(Receive(l, day), src, ArrivalDay(day, lead), cost)
  }

  /** The per-replication reset: stock at the target, no backorder, nothing in transit. */
  function Reset(l: Ledger): (r: Ledger)
    ensures r.Position() == l.baseStock
    ensures r.onHand == l.baseStock && r.backorder == 0 && r.inTransit == []
    ensures r.name == l.name && r.baseStock == l.baseStock
  {
    l.(onHand := l.baseStock, backorder := 0, inTransit := [])
  }

  /** Stock and backorder are non-negative and every shipment on its way is valid. */
  ghost predicate Sound(l: Ledger)
  {
    l.onHand >= 0 && l.backorder >= 0 && AllValid(l.inTransit)
  }

  /** Stock and backorder are non-negative and never both positive. */
  ghost predicate Settled(l: Ledger)
  {
    l.onHand >= 0 && l.backorder >= 0 && !(l.onHand > 0 && l.backorder > 0)
  }

  /** Every shipment still on its way is valid and due after `day`, at most `lead` days later. */
  ghost predicate InWindow(s: seq<Shipment>, day: int, lead: int)
  {
    forall sh {:trigger sh in s} :: sh in s ==> sh.Valid() && day < sh.arriveDay <= day + lead
  }

  /** The state of a node at the end of `day` in a run that started from a reset. */
  ghost predicate Steady(l: Ledger, day: int, lead: int)
  {
    Settled(l) && l.Position() == l.baseStock && InWindow(l.inTransit, day, lead)
  }

  lemma WindowValid(s: seq<Shipment>, day: int, lead: int)
    requires InWindow(s, day, lead)
    ensures AllValid(s)
  {
    forall i | 0 <= i < |s| ensures s[i].Valid() { assert s[i] in s; }
  }

  /** A reset node with a non-negative target is in the steady state before day 1, whatever the lead time. */
  lemma ResetIsSteady(l: Ledger, lead: int)
    requires l.baseStock >= 0
    ensures Steady(Reset(l), 0, lead)
  {
  }

  /** The morning keeps the node settled, its position, and moves the window on by one day. */
  lemma {:induction false} ReceiveSteady(l: Ledger, day: int, lead: int)
    requires Steady(l, day - 1, lead)
    ensures var m := Receive(l, day);
      Settled(m) && m.Position() == l.Position() && m.baseStock == l.baseStock
      && m.inTransit == Pending(l.inTransit, day) && InWindow(m.inTransit, day, lead - 1)
  {
    WindowValid(l.inTransit, day - 1, lead);
    PendingMembershipAll(l.inTransit, day);
    var a := Arrive(l, day);
    assert a.inTransit == Pending(l.inTransit, day);
  }

  /**
   * From a steady state, the morning leaves non-negative stock, and after
   * serving a non-negative demand the node is settled and short of its target
   * by exactly that demand.
   */
  lemma {:induction false} ServeSteady(l: Ledger, day: int, demand: int, lead: int)
    requires demand >= 0
    requires Steady(l, day - 1, lead)
    ensures Receive(l, day).onHand >= 0
    ensures var s := Serve(Receive(l, day), demand).ledger;
      Settled(s) && OrderQty(s) == demand && s.inTransit == Pending(l.inTransit, day)
  {
    ReceiveSteady(l, day, lead);
  }

  /**
   * From a steady state, a retailer's day leaves it steady, and the base-stock
   * rule passes the day's demand straight through: the one shipment ordered,
   * if any, is for exactly that demand and is due `lead` days later.
   */
  lemma {:induction false} RetailerDaySteady(l: Ledger, day: int, demand: int, src: string, lead: int, cost: real)
    requires lead >= 1 && demand >= 0
    requires Steady(l, day - 1, lead)
    ensures var r := RetailerDay(l, day, demand, src, lead, cost);
      Steady(r, day, lead)
      && r.inTransit == Pending(l.inTransit, day)
                        + (if demand > 0 then [Shipment(demand, src, l.name, day + lead, cost)] else [])
  {
    ReceiveSteady(l, day, lead);
    ServeSteady(l, day, demand, lead);
    var s := Serve(Receive(l, day), demand).ledger;
    var r := Order(s, src, ArrivalDay(day, lead), cost);
    if demand > 0 {
      assert r.inTransit == s.inTransit + [Shipment(demand, src, l.name, day + lead, cost)] by {
        assert r.inTransit[..|s.inTransit|] == s.inTransit;
      }
    }
    forall sh | sh in r.inTransit ensures sh.Valid() && day < sh.arriveDay <= day + lead {
      if sh !in s.inTransit {
        assert sh == Shipment(demand, src, l.name, day + lead, cost);
      }
    }
  }

  /**
   * What is on its way to a retailer at the end of a day: the shipments that
   * were on their way and are not due that day, and the one shipment the
   * day's review orders, if it orders, which is due `lead` days later.
   */
  lemma {:induction false} RetailerDayInTransit(l: Ledger, day: int, demand: int, src: string, lead: int, cost: real, sh: Shipment)
    ensures var s := Serve(Receive(l, day), demand).ledger;
      sh in RetailerDay(l, day, demand, src, lead, cost).inTransit
      <==> (sh in l.inTransit && sh.arriveDay != day)
           || (OrderQty(s) > 0 && sh == Shipment(OrderQty(s), src, l.name, day + lead, cost))
  {
    var s := Serve(Receive(l, day), demand).ledger;
    var r := Order(s, src, ArrivalDay(day, lead), cost);
    assert s.inTransit == Pending(l.inTransit, day);
    PendingMembership(l.inTransit, day, sh);
    if OrderQty(s) > 0 {
      assert r.inTransit == s.inTransit + [Shipment(OrderQty(s), src, l.name, day + lead, cost)] by {
        assert r.inTransit[..|s.inTransit|] == s.inTransit;
      }
    }
  }

  /**
   * The warehouse faces no demand, so from a steady state its position is
   * already at its target after the morning and it places no order.
   */
  lemma {:induction false} WarehouseDayNoOrder(l: Ledger, day: int, src: string, lead: int, cost: real)
    requires lead >= 1
    requires Steady(l, day - 1, lead)
    ensures OrderQty(Receive(l, day)) == 0
    ensures Steady(WarehouseDay(l, day, src, lead, cost), day, lead)
    ensures WarehouseDay(l, day, src, lead, cost).inTransit == Pending(l.inTransit, day)
  {
    ReceiveSteady(l, day, lead);
  }

  /** A retailer's ledger at the end of day |ds|, starting on day 1 from `l`, with `ds[t]` the demand of day t + 1. */
  function RetailerRun(l: Ledger, ds: seq<int>, src: string, lead: int, cost: real): (r: Ledger)
    ensures r.name == l.name && r.baseStock == l.baseStock
    decreases |ds|
  {
    if ds == [] then l
    else RetailerDay(RetailerRun(l, ds[..|ds| - 1], src, lead, cost), |ds|, ds[|ds| - 1], src, lead, cost)
  }

  /** The warehouse's ledger at the end of day `days`, starting on day 1 from `l`. */
  function WarehouseRun(l: Ledger, days: int, src: string, lead: int, cost: real): (r: Ledger)
    ensures r.name == l.name && r.baseStock == l.baseStock
    decreases days
  {
    if days <= 0 then l
    else WarehouseDay(WarehouseRun(l, days - 1, src, lead, cost), days, src, lead, cost)
  }

  /** A retailer that starts steady with non-negative demands stays steady at the end of every day. */
  lemma {:induction false} RetailerRunSteady(l: Ledger, ds: seq<nat>, src: string, lead: int, cost: real)
    requires lead >= 1
    requires Steady(l, 0, lead)
    ensures Steady(RetailerRun(l, ds, src, lead, cost), |ds|, lead)
  {
    if ds != [] {
      RetailerRunSteady(l, ds[..|ds| - 1], src, lead, cost);
      RetailerDaySteady(RetailerRun(l, ds[..|ds| - 1], src, lead, cost), |ds|, ds[|ds| - 1], src, lead, cost);
    }
  }

  /**
   * Day n of a retailer's run, for one shipment: one on its way stays exactly
   * when it is not due on day n, and one that is new is due `lead` days later.
   */
  lemma RetailerRunDayStep(l: Ledger, ds: seq<int>, n: int, src: string, lead: int, cost: real, sh: Shipment)
    requires 1 <= n <= |ds| && lead >= 1
    ensures sh in RetailerRun(l, ds[..n - 1], src, lead, cost).inTransit ==>
              (sh in RetailerRun(l, ds[..n], src, lead, cost).inTransit <==> sh.arriveDay != n)
    ensures sh in RetailerRun(l, ds[..n], src, lead, cost).inTransit ==>
              sh in RetailerRun(l, ds[..n - 1], src, lead, cost).inTransit || sh.arriveDay == n + lead
  {
    assert ds[..n][..n - 1] == ds[..n - 1];
    RetailerDayInTransit(RetailerRun(l, ds[..n - 1], src, lead, cost), n, ds[n - 1], src, lead, cost, sh);
  }

  /**
   * With a lead time of at least one day, a shipment on its way to a retailer
   * at the end of day `t` is still on its way at the end of day `u` exactly
   * when it did not fall due on any of the days t + 1 .. u: it is received,
   * and removed, on its due day and not before.
   */
  lemma {:induction false} InTransitUntilDue(l: Ledger, ds: seq<int>, src: string, lead: int, cost: real, t: nat, u: nat,
                                             sh: Shipment)
    requires lead >= 1 && t <= u <= |ds|
    requires sh in RetailerRun(l, ds[..t], src, lead, cost).inTransit
    ensures sh in RetailerRun(l, ds[..u], src, lead, cost).inTransit <==> !(t < sh.arriveDay <= u)
  {
    TrailMoves(l, ds, src, lead, cost, sh);
    TrailAt(l, ds, src, lead, cost, t);
    TrailAt(l, ds, src, lead, cost, u);
    StaysUntilDue(Trail(l, ds, src, lead, cost), lead, t, u, sh);
  }

  /** The lists of shipments on their way to a retailer at the end of days 0, 1, ..., |ds| of a run. */
  ghost function Trail(l: Ledger, ds: seq<int>, src: string, lead: int, cost: real): (r: seq<seq<Shipment>>)
    ensures |r| == |ds| + 1
  {
    seq(|ds| + 1, n requires 0 <= n <= |ds| => RetailerRun(l, ds[..n], src, lead, cost).inTransit)
  }

  lemma TrailAt(l: Ledger, ds: seq<int>, src: string, lead: int, cost: real, n: nat)
    requires n <= |ds|
    ensures Trail(l, ds, src, lead, cost)[n] == RetailerRun(l, ds[..n], src, lead, cost).inTransit
  {
  }

  /** Day by day, a run moves each shipment as DailyMoves says. */
  lemma TrailMoves(l: Ledger, ds: seq<int>, src: string, lead: int, cost: real, sh: Shipment)
    requires lead >= 1
    ensures DailyMoves(Trail(l, ds, src, lead, cost), lead, sh)
  {
    var trail := Trail(l, ds, src, lead, cost);
    forall n | 1 <= n < |trail|
      ensures sh in trail[n - 1] ==> (sh in trail[n] <==> sh.arriveDay != n)
      ensures sh in trail[n] ==> sh in trail[n - 1] || sh.arriveDay == n + lead
    {
      TrailAt(l, ds, src, lead, cost, n - 1);
      TrailAt(l, ds, src, lead, cost, n);
      RetailerRunDayStep(l, ds, n, src, lead, cost, sh);
    }
  }

  /**
   * Along the lists of shipments in transit at the end of days 0, 1, 2, ...,
   * `sh` leaves a list it is in on its due day and on no other, and joins one
   * only as a shipment due `lead` days later.
   */
  ghost predicate DailyMoves(trail: seq<seq<Shipment>>, lead: int, sh: Shipment)
  {
    && (forall n :: 1 <= n < |trail| ==> (sh in trail[n - 1] ==> (sh in trail[n] <==> sh.arriveDay != n)))
    && (forall n :: 1 <= n < |trail| ==> (sh in trail[n] ==> sh in trail[n - 1] || sh.arriveDay == n + lead))
  }

  /**
   * The induction behind InTransitUntilDue, over the lists of shipments in
   * transit at the end of days 0, 1, 2, ...: a shipment already listed leaves
   * on its due day and on no other, and one not listed can only join with a due
   * day of `lead` days later, so it never leaves during the window it joins in.
   */
  lemma {:induction false} StaysUntilDue(trail: seq<seq<Shipment>>, lead: int, t: nat, u: nat, sh: Shipment)
    requires lead >= 1 && t <= u < |trail| && DailyMoves(trail, lead, sh)
    requires sh in trail[t]
    ensures sh in trail[u] <==> !(t < sh.arriveDay <= u)
    decreases u
  {
    if u > t {
      StaysUntilDue(trail, lead, t, u - 1, sh);
    }
  }

  /**
   * A warehouse that starts steady is steady at the end of every day, so by
   * WarehouseDayNoOrder its order quantity is zero on every day: it never orders.
   */
  lemma {:induction false} WarehouseRunSteady(l: Ledger, days: nat, src: string, lead: int, cost: real)
    requires lead >= 1
    requires Steady(l, 0, lead)
    ensures Steady(WarehouseRun(l, days, src, lead, cost), days, lead)
  {
    if days > 0 {
      WarehouseRunSteady(l, days - 1, src, lead, cost);
      WarehouseDayNoOrder(WarehouseRun(l, days - 1, src, lead, cost), days, src, lead, cost);
    }
  }

  /** A settled warehouse at its target with nothing on its way is left exactly as it is by a day. */
  lemma WarehouseDayIdle(l: Ledger, day: int, src: string, lead: int, cost: real)
    requires Settled(l) && l.Position() == l.baseStock && l.inTransit == []
    ensures WarehouseDay(l, day, src, lead, cost) == l
  {
    assert Arrive(l, day) == l;
  }

  /** In particular a warehouse fresh from the reset does not change at all during a run. */
  lemma {:induction false} WarehouseRunIdle(l: Ledger, days: nat, src: string, lead: int, cost: real)
    requires l.baseStock >= 0
    ensures WarehouseRun(Reset(l), days, src, lead, cost) == Reset(l)
  {
    if days > 0 {
      WarehouseRunIdle(l, days - 1, src, lead, cost);
      WarehouseDayIdle(Reset(l), days, src, lead, cost);
    }
  }

  /**
   * Whatever state a retailer starts a day in, the day moves its inventory
   * position down by the demand and then back up to at least the target, to
   * exactly the target when that took an order.
   */
  lemma RetailerDayPosition(l: Ledger, day: int, demand: int, src: string, lead: int, cost: real)
    ensures RetailerDay(l, day, demand, src, lead, cost).Position() == Max(l.baseStock, l.Position() - demand)
  {
  }

  /** A warehouse's day brings its position up to at least the target and leaves it unchanged when already there. */
  lemma WarehouseDayPosition(l: Ledger, day: int, src: string, lead: int, cost: real)
    ensures WarehouseDay(l, day, src, lead, cost).Position() == Max(l.baseStock, l.Position())
  {
  }

  /**
   * After one or more days of a run, whatever its start, the warehouse's
   * position is the larger of its target and its starting position: the
   * first day orders up to the target, and no later day orders again.
   */
  lemma {:induction false} WarehouseRunPosition(l: Ledger, days: int, src: string, lead: int, cost: real)
    requires days >= 1
    ensures WarehouseRun(l, days, src, lead, cost).Position() == Max(l.baseStock, l.Position())
    decreases days
  {
    WarehouseDayPosition(WarehouseRun(l, days - 1, src, lead, cost), days, src, lead, cost);
    if days > 1 {
      WarehouseRunPosition(l, days - 1, src, lead, cost);
    }
  }

  /**
   * From any sound ledger, whatever state the caller left it in, a retailer's
   * day with a non-negative demand leaves it sound and settled: no negative
   * stock, no negative backorder, never both stock and backorder, and only
   * valid shipments on their way.
   */
  lemma RetailerDaySound(l: Ledger, day: int, demand: int, src: string, lead: int, cost: real)
    requires Sound(l) && demand >= 0
    ensures var r := RetailerDay(l, day, demand, src, lead, cost);
      Sound(r) && Settled(r)
  {
    var m := Receive(l, day);
    assert Sound(m) by { assert Sound(Arrive(l, day)); }
    OrderValid(Serve(m, demand).ledger, src, ArrivalDay(day, lead), cost);
  }

  /** The same for the warehouse's day, which has no customer demand. */
  lemma WarehouseDaySound(l: Ledger, day: int, src: string, lead: int, cost: real)
    requires Sound(l)
    ensures var r := WarehouseDay(l, day, src, lead, cost);
      Sound(r) && Settled(r)
  {
    assert Sound(Receive(l, day)) by { assert Sound(Arrive(l, day)); }
    OrderValid(Receive(l, day), src, ArrivalDay(day, lead), cost);
  }

  /** An order only ever adds a valid shipment. */
  lemma OrderValid(l: Ledger, src: string, arriveDay: int, cost: real)
    requires AllValid(l.inTransit)
    ensures AllValid(Order(l, src, arriveDay, cost).inTransit)
  {
    var r := Order(l, src, arriveDay, cost);
    forall i | 0 <= i < |r.inTransit| ensures r.inTransit[i].Valid() {
      if i < |l.inTransit| {
        assert r.inTransit[i] == r.inTransit[..|l.inTransit|][i];
      }
    }
  }

  /** A retailer's run from a sound ledger with non-negative demands is sound after every day, and settled once a day has passed. */
  lemma {:induction false} RetailerRunSound(l: Ledger, ds: seq<int>, src: string, lead: int, cost: real)
    requires Sound(l)
    requires forall t :: 0 <= t < |ds| ==> ds[t] >= 0
    ensures Sound(RetailerRun(l, ds, src, lead, cost))
    ensures ds != [] ==> Settled(RetailerRun(l, ds, src, lead, cost))
    decreases |ds|
  {
    if ds != [] {
      RetailerRunSound(l, ds[..|ds| - 1], src, lead, cost);
      RetailerDaySound(RetailerRun(l, ds[..|ds| - 1], src, lead, cost), |ds|, ds[|ds| - 1], src, lead, cost);
    }
  }

  /** A warehouse's run from a sound ledger is sound after every day, and settled once a day has passed. */
  lemma {:induction false} WarehouseRunSound(l: Ledger, days: int, src: string, lead: int, cost: real)
    requires Sound(l)
    ensures Sound(WarehouseRun(l, days, src, lead, cost))
    ensures days >= 1 ==> Settled(WarehouseRun(l, days, src, lead, cost))
    decreases days
  {
    if days > 0 {
      WarehouseRunSound(l, days - 1, src, lead, cost);
      WarehouseDaySound(WarehouseRun(l, days - 1, src, lead, cost), days, src, lead, cost);
    }
  }
}
