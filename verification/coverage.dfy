/**
 * When the base stock covers the lead time at the largest daily demand, the
 * base-stock rule never runs short: every unit of demand is served from
 * stock on the day it arrives, no backorder is ever created, and the
 * backorder cost stays at zero. With a demand of 100 every day and a base
 * stock of 100 times the lead time, this gives a fill rate of exactly 1.
 */
module Coverage {
  import opened Shipments
  import opened Nodes
  import opened Accounting
  import opened DailyCycle
  import opened Replication
  import opened RunProperties

  /** The shipments on their way are listed in order of strictly increasing arrival day. */
  ghost predicate Increasing(s: seq<Shipment>)
  {
    forall i, j :: 0 <= i < j < |s| ==> s[i].arriveDay < s[j].arriveDay
  }

  /** No shipment on its way carries more than `dmax` units. */
  ghost predicate AtMost(s: seq<Shipment>, dmax: int)
  {
    forall i :: 0 <= i < |s| ==> s[i].qty <= dmax
  }

  /**
   * The state of a retailer at the end of `day` in a run whose demands never
   * exceed `dmax`, when its base stock covers `lead` days of that demand:
   * steady, without backorder, with one order at most per arrival day, none
   * of them above `dmax`.
   */
  ghost predicate Covered(l: Ledger, day: int, lead: int, dmax: int)
  {
    l.baseStock >= dmax * lead
    && Steady(l, day, lead) && l.backorder == 0 && Increasing(l.inTransit) && AtMost(l.inTransit, dmax)
  }

  ghost predicate AllCovered(ls: seq<Ledger>, day: int, lead: int, dmax: int)
  {
    forall k :: 0 <= k < |ls| ==> Covered(ls[k], day, lead, dmax)
  }

  /** Every demand of a table lies between zero and `dmax`. */
  predicate Bounded(demands: seq<seq<int>>, dmax: int)
  {
    forall t, k :: 0 <= t < |demands| && 0 <= k < |demands[t]| ==> 0 <= demands[t][k] <= dmax
  }

  /** The tail of an increasing list is increasing and due after its head. */
  lemma IncreasingTail(s: seq<Shipment>)
    requires s != [] && Increasing(s)
    ensures Increasing(s[1..])
    ensures forall i :: 0 <= i < |s| - 1 ==> s[0].arriveDay < s[1..][i].arriveDay
  {
    forall i, j | 0 <= i < j < |s| - 1 ensures s[1..][i].arriveDay < s[1..][j].arriveDay {
      assert s[1..][i] == s[i + 1] && s[1..][j] == s[j + 1];
    }
    forall i | 0 <= i < |s| - 1 ensures s[0].arriveDay < s[1..][i].arriveDay {
      assert s[1..][i] == s[i + 1];
    }
  }

  /** A shipment due before every shipment of an increasing list can be put in front of it. */
  lemma IncreasingCons(x: Shipment, t: seq<Shipment>)
    requires Increasing(t)
    requires forall i :: 0 <= i < |t| ==> x.arriveDay < t[i].arriveDay
    ensures Increasing([x] + t)
  {
    var s := [x] + t;
    forall i, j | 0 <= i < j < |s| ensures s[i].arriveDay < s[j].arriveDay {
      assert s[j] == t[j - 1];
      if i > 0 { assert s[i] == t[i - 1]; }
    }
  }

  /** A shipment due after every shipment of a list, and not above `dmax`, can be put at its end. */
  lemma IncreasingSnoc(t: seq<Shipment>, x: Shipment, dmax: int)
    requires Increasing(t) && AtMost(t, dmax) && x.qty <= dmax
    requires forall i :: 0 <= i < |t| ==> t[i].arriveDay < x.arriveDay
    ensures Increasing(t + [x]) && AtMost(t + [x], dmax)
  {
    var s := t + [x];
    forall i, j | 0 <= i < j < |s| ensures s[i].arriveDay < s[j].arriveDay {
      assert s[i] == t[i];
      if j < |t| { assert s[j] == t[j]; }
    }
    forall i | 0 <= i < |s| ensures s[i].qty <= dmax {
      if i < |t| { assert s[i] == t[i]; }
    }
  }

  /** Dropping the shipments due on `day` keeps the others in order of arrival day. */
  lemma {:induction false} PendingIncreasing(s: seq<Shipment>, day: int)
    requires Increasing(s)
    ensures Increasing(Pending(s, day))
  {
    if s != [] {
      IncreasingTail(s);
      var rest := Pending(s[1..], day);
      PendingIncreasing(s[1..], day);
      if s[0].arriveDay != day {
        PendingMembershipAll(s[1..], day);
        forall i | 0 <= i < |rest| ensures s[0].arriveDay < rest[i].arriveDay {
          assert rest[i] in rest;
          var j :| 0 <= j < |s[1..]| && s[1..][j] == rest[i];
        }
        IncreasingCons(s[0], rest);
        assert Pending(s, day) == [s[0]] + rest;
      }
    }
  }

  /** Dropping the shipments due on `day` keeps the bound on quantities. */
  lemma PendingAtMost(s: seq<Shipment>, day: int, dmax: int)
    requires AtMost(s, dmax)
    ensures AtMost(Pending(s, day), dmax)
  {
    var p := Pending(s, day);
    PendingMembershipAll(s, day);
    forall i | 0 <= i < |p| ensures p[i].qty <= dmax {
      assert p[i] in p;
      var j :| 0 <= j < |s| && s[j] == p[i];
    }
  }

  /** Shipments with strictly increasing arrival days, all due in (a, a + m], number at most m. */
  lemma {:induction false} WindowCount(s: seq<Shipment>, a: int, m: int)
    requires m >= 0 && Increasing(s)
    requires forall i :: 0 <= i < |s| ==> a < s[i].arriveDay <= a + m
    ensures |s| <= m
    decreases |s|
  {
    if s != [] {
      var rest := s[1..];
      assert Increasing(rest) by {
        forall i, j | 0 <= i < j < |rest| ensures rest[i].arriveDay < rest[j].arriveDay {
          assert rest[i] == s[i + 1] && rest[j] == s[j + 1];
        }
      }
      var b := s[0].arriveDay;
      forall i | 0 <= i < |rest| ensures b < rest[i].arriveDay <= b + (a + m - b) {
        assert rest[i] == s[i + 1];
      }
      WindowCount(rest, b, a + m - b);
    }
  }

  /** Shipments of at most `dmax` units each carry at most `dmax` times their number. */
  lemma {:induction false} TotalAtMost(s: seq<Shipment>, dmax: int)
    requires AtMost(s, dmax)
    ensures TotalQty(s) <= dmax * |s|
  {
    if s != [] {
      assert AtMost(s[1..], dmax) by {
        forall i | 0 <= i < |s[1..]| ensures s[1..][i].qty <= dmax { assert s[1..][i] == s[i + 1]; }
      }
      TotalAtMost(s[1..], dmax);
      assert dmax * |s| == dmax + dmax * |s[1..]|;
    }
  }

  /**
   * The morning after a covered day: at most lead - 1 orders of at most
   * `dmax` units are still on their way, so the stock on hand is at least
   * `dmax`, and there is no backorder.
   */
  lemma {:induction false} MorningStock(l: Ledger, day: int, lead: int, dmax: int)
    requires lead >= 1 && dmax >= 0
    requires Covered(l, day - 1, lead, dmax)
    ensures var m := Receive(l, day);
      m.onHand >= dmax && m.backorder == 0 && m.inTransit == Pending(l.inTransit, day)
  {
    ReceiveSteady(l, day, lead);
    var m := Receive(l, day);
    var p := m.inTransit;
    assert Arrive(l, day).backorder == 0;
    PendingIncreasing(l.inTransit, day);
    PendingAtMost(l.inTransit, day, dmax);
    forall i | 0 <= i < |p| ensures day < p[i].arriveDay <= day + (lead - 1) {
      assert p[i] in p;
    }
    WindowCount(p, day, lead - 1);
    TotalAtMost(p, dmax);
    StockLeft(m.onHand, TotalQty(p), |p|, lead, dmax, l.baseStock);
  }

  /**
   * The arithmetic of MorningStock: a position of `base` >= dmax * lead,
   * with at most lead - 1 orders of at most `dmax` units on their way and no
   * backorder, leaves at least `dmax` on hand.
   */
  lemma StockLeft(onHand: int, onOrder: int, n: int, lead: int, dmax: int, base: int)
    requires dmax >= 0 && 0 <= n <= lead - 1 && base >= dmax * lead
    requires onHand + onOrder == base && onOrder <= dmax * n
    ensures onHand >= dmax
  {
    assert dmax * (lead - 1) == dmax * n + dmax * (lead - 1 - n);
    assert dmax * (lead - 1 - n) >= 0;
    assert dmax * lead == dmax * (lead - 1) + dmax;
  }

  /**
   * A covered retailer's day with a demand of at most `dmax`: the whole
   * demand is served from stock, nothing is backordered, and the retailer
   * ends the day covered.
   */
  lemma {:induction false} RetailerDayCovered(l: Ledger, day: int, demand: int, src: string, lead: int, cost: real, dmax: int)
    requires lead >= 1 && 0 <= demand <= dmax
    requires Covered(l, day - 1, lead, dmax)
    ensures Receive(l, day).onHand >= demand
    ensures var sv := Serve(Receive(l, day), demand); sv.served == demand && sv.shortage == 0
    ensures Covered(RetailerDay(l, day, demand, src, lead, cost), day, lead, dmax)
  {
    MorningStock(l, day, lead, dmax);
    RetailerDaySteady(l, day, demand, src, lead, cost);
    PendingIncreasing(l.inTransit, day);
    PendingAtMost(l.inTransit, day, dmax);
    PendingMembershipAll(l.inTransit, day);
    var p := Pending(l.inTransit, day);
    var r := RetailerDay(l, day, demand, src, lead, cost);
    if demand > 0 {
      var sh := Shipment(demand, src, l.name, day + lead, cost);
      assert r.inTransit == p + [sh];
      forall i | 0 <= i < |p| ensures p[i].arriveDay < sh.arriveDay {
        assert p[i] in p;
      }
      IncreasingSnoc(p, sh, dmax);
    } else {
      assert r.inTransit == p + [];
    }
  }

  /** A retailer that starts covered and sees demands of at most `dmax` is covered at the end of every day. */
  lemma {:induction false} RetailerRunCovered(l: Ledger, ds: seq<int>, src: string, lead: int, cost: real, dmax: int)
    requires lead >= 1 && Covered(l, 0, lead, dmax)
    requires forall t :: 0 <= t < |ds| ==> 0 <= ds[t] <= dmax
    ensures Covered(RetailerRun(l, ds, src, lead, cost), |ds|, lead, dmax)
    decreases |ds|
  {
    if ds != [] {
      RetailerRunCovered(l, ds[..|ds| - 1], src, lead, cost, dmax);
      RetailerDayCovered(RetailerRun(l, ds[..|ds| - 1], src, lead, cost), |ds|, ds[|ds| - 1], src, lead, cost, dmax);
    }
  }

  /** A reset retailer whose base stock covers `lead` days at `dmax` starts covered. */
  lemma ResetCovered(l: Ledger, lead: int, dmax: int)
    requires lead >= 1 && dmax >= 0 && l.baseStock >= dmax * lead
    ensures Covered(Reset(l), 0, lead, dmax)
  {
    assert dmax * lead >= 0;
  }

  lemma ResetAllCovered(ls: seq<Ledger>, lead: int, dmax: int)
    requires lead >= 1 && dmax >= 0
    requires forall k :: 0 <= k < |ls| ==> ls[k].baseStock >= dmax * lead
    ensures AllCovered(ResetAll(ls), 0, lead, dmax)
  {
    forall k | 0 <= k < |ls| ensures Covered(ResetAll(ls)[k], 0, lead, dmax) {
      ResetCovered(ls[k], lead, dmax);
    }
  }

  // ---- The retailers of one day ------------------------------------------------------------

  /**
   * The retailers' part of a covered day: each has at least its demand on
   * hand when the demand arrives, and each ends the day covered.
   */
  lemma RetailersDayCovered(rs: seq<Ledger>, day: int, ds: seq<int>, src: string, lead: int, cPerUnit: real, dmax: int)
    requires |ds| == |rs| && lead >= 1
    requires forall k :: 0 <= k < |ds| ==> 0 <= ds[k] <= dmax
    requires AllCovered(rs, day - 1, lead, dmax)
    ensures var morning := ReceiveAll(rs, day);
      var evening := OrderAll(ServeAll(morning, ds), src, ArrivalDay(day, lead), cPerUnit);
      AllCovered(evening, day, lead, dmax)
      && (forall k :: 0 <= k < |ds| ==> ds[k] <= morning[k].onHand && evening[k].backorder == 0)
  {
    var morning := ReceiveAll(rs, day);
    var evening := OrderAll(ServeAll(morning, ds), src, ArrivalDay(day, lead), cPerUnit);
    forall k | 0 <= k < |ds|
      ensures ds[k] <= morning[k].onHand && Covered(evening[k], day, lead, dmax)
    {
      RetailerDayCovered(rs[k], day, ds[k], src, lead, cPerUnit, dmax);
    }
  }

  /** When every retailer has its demand on hand, all of it is served and no backorder is created. */
  lemma {:induction false} ServeSumNoShortage(ls: seq<Ledger>, ds: seq<int>, n: nat)
    requires n <= |ls| == |ds|
    requires forall k :: 0 <= k < n ==> 0 <= ds[k] <= ls[k].onHand
    ensures ServeSum(ls, ds, n).fillImmediate == DemandSum(ds[..n])
    ensures ServeSum(ls, ds, n).backordersCreated == 0
  {
    if n > 0 {
      ServeSumNoShortage(ls, ds, n - 1);
      assert ds[..n][..n - 1] == ds[..n - 1];
    }
  }

  /** Nodes without backorder add nothing to the backorder cost, whatever the rate. */
  lemma {:induction false} CostSumNoBackorder(ls: seq<Ledger>, holdingRate: real, backorderRate: real, n: nat)
    requires n <= |ls|
    requires forall k :: 0 <= k < n ==> ls[k].backorder == 0
    ensures CostSum(ls, holdingRate, backorderRate, n).backorderCost == 0.0
  {
    if n > 0 {
      CostSumNoBackorder(ls, holdingRate, backorderRate, n - 1);
      ZeroTimes(ls[n - 1].backorder, backorderRate);
    }
  }

  // ---- One day -------------------------------------------------------------------------------

  /**
   * The tally of a decentralized day in which every retailer has its demand
   * on hand and ends without backorder: the whole demand is served at once,
   * and neither backorders nor backorder cost accrue.
   */
  lemma DecentralizedTallyNoShortage(t: Tally, ds: seq<int>, morning: seq<Ledger>, served: seq<Ledger>, evening: seq<Ledger>,
                                     cfg: Config)
    requires |morning| == |ds| && |served| == |ds| && |evening| == |ds|
    requires forall k :: 0 <= k < |ds| ==> 0 <= ds[k] <= morning[k].onHand
    requires forall k :: 0 <= k < |evening| ==> evening[k].backorder == 0
    ensures var e := DecentralizedTally(t, ds, morning, served, evening, cfg);
      e.fillImmediate - t.fillImmediate == DemandSum(ds)
      && e.backordersCreated == t.backordersCreated && e.backorderCost == t.backorderCost
  {
    ServeSumNoShortage(morning, ds, |ds|);
    ServeSumFacts(morning, ds, |ds|);
    OrderSumFacts(served, cfg.costTransportDirect, |ds|);
    CostSumFacts(evening, cfg.costHoldingPerDay, cfg.costBackorderPerDay, |ds|);
    CostSumNoBackorder(evening, cfg.costHoldingPerDay, cfg.costBackorderPerDay, |ds|);
    assert ds[..|ds|] == ds;
  }

  /** The same for the tally of a centralized day, whatever the warehouse orders, when it too ends without backorder. */
  lemma CentralizedTallyNoShortage(t: Tally, ds: seq<int>, cwMorning: Ledger, morning: seq<Ledger>, served: seq<Ledger>,
                                   allEvening: seq<Ledger>, cfg: Config)
    requires |morning| == |ds| && |served| == |ds|
    requires forall k :: 0 <= k < |ds| ==> 0 <= ds[k] <= morning[k].onHand
    requires forall k :: 0 <= k < |allEvening| ==> allEvening[k].backorder == 0
    ensures var e := CentralizedTally(t, ds, cwMorning, morning, served, allEvening, cfg);
      e.fillImmediate - t.fillImmediate == DemandSum(ds)
      && e.backordersCreated == t.backordersCreated && e.backorderCost == t.backorderCost
  {
    ServeSumNoShortage(morning, ds, |ds|);
    ServeSumFacts(morning, ds, |ds|);
    OrderSumFacts(served, cfg.costTransportOutbound, |ds|);
    CostSumFacts(allEvening, cfg.costHoldingPerDay, cfg.costBackorderPerDay, |allEvening|);
    CostSumNoBackorder(allEvening, cfg.costHoldingPerDay, cfg.costBackorderPerDay, |allEvening|);
    assert ds[..|ds|] == ds;
  }

  /**
   * A covered decentralized day: the retailers end covered, the whole day's
   * demand is served at once, and neither backorders nor backorder cost accrue.
   */
  lemma DecentralizedDayCovered(d: Decentralized, day: int, ds: seq<int>, mfgName: string, cfg: Config, dmax: int)
    requires |ds| == |d.retailers| && cfg.ltMfgToRetailer >= 1
    requires forall k :: 0 <= k < |ds| ==> 0 <= ds[k] <= dmax
    requires AllCovered(d.retailers, day - 1, cfg.ltMfgToRetailer, dmax)
    ensures var e := DecentralizedDay(d, day, ds, mfgName, cfg);
      AllCovered(e.retailers, day, cfg.ltMfgToRetailer, dmax)
      && e.tally.fillImmediate - d.tally.fillImmediate == DemandSum(ds)
      && e.tally.backordersCreated == d.tally.backordersCreated
      && e.tally.backorderCost == d.tally.backorderCost
  {
    var morning := ReceiveAll(d.retailers, day);
    var served := ServeAll(morning, ds);
    var evening := OrderAll(served, mfgName, ArrivalDay(day, cfg.ltMfgToRetailer), cfg.costTransportDirect);
    RetailersDayCovered(d.retailers, day, ds, mfgName, cfg.ltMfgToRetailer, cfg.costTransportDirect, dmax);
    DecentralizedTallyNoShortage(d.tally, ds, morning, served, evening, cfg);
  }

  /**
   * A covered centralized day: the warehouse keeps no backorder, the
   * retailers end covered, the whole day's demand is served at once, and
   * neither backorders nor backorder cost accrue.
   */
  lemma CentralizedDayCovered(c: Centralized, day: int, ds: seq<int>, mfgName: string, cfg: Config, dmax: int)
    requires |ds| == |c.retailers| && cfg.ltCwToRetailer >= 1
    requires forall k :: 0 <= k < |ds| ==> 0 <= ds[k] <= dmax
    requires c.cw.backorder == 0 && AllCovered(c.retailers, day - 1, cfg.ltCwToRetailer, dmax)
    ensures var e := CentralizedDay(c, day, ds, mfgName, cfg);
      e.cw.backorder == 0 && AllCovered(e.retailers, day, cfg.ltCwToRetailer, dmax)
      && e.tally.fillImmediate - c.tally.fillImmediate == DemandSum(ds)
      && e.tally.backordersCreated == c.tally.backordersCreated
      && e.tally.backorderCost == c.tally.backorderCost
  {
    var cwMorning := Receive(c.cw, day);
    var morning := ReceiveAll(c.retailers, day);
    var served := ServeAll(morning, ds);
    var cwEvening := Order(cwMorning, mfgName, ArrivalDay(day, cfg.ltMfgToCw), cfg.costTransportInbound);
    var evening := OrderAll(served, c.cw.name, ArrivalDay(day, cfg.ltCwToRetailer), cfg.costTransportOutbound);
    assert Arrive(c.cw, day).backorder == 0;
    RetailersDayCovered(c.retailers, day, ds, c.cw.name, cfg.ltCwToRetailer, cfg.costTransportOutbound, dmax);
    var all := [cwEvening] + evening;
    forall k | 0 <= k < |all| ensures all[k].backorder == 0 {
      if k > 0 { assert all[k] == evening[k - 1]; }
    }
    CentralizedTallyNoShortage(c.tally, ds, cwMorning, morning, served, all, cfg);
  }

  // ---- Whole replications --------------------------------------------------------------------

  /** A decentralized run that starts covered and never sees a demand above `dmax` serves all of it at once. */
  lemma {:induction false} DecentralizedRunCovered(start: Decentralized, demands: seq<seq<int>>, mfgName: string, cfg: Config,
                                                   dmax: int)
    requires Shaped(demands, |start.retailers|) && Bounded(demands, dmax) && cfg.ltMfgToRetailer >= 1
    requires AllCovered(start.retailers, 0, cfg.ltMfgToRetailer, dmax)
    ensures var r := DecentralizedRun(start, demands, mfgName, cfg);
      AllCovered(r.retailers, |demands|, cfg.ltMfgToRetailer, dmax)
      && r.tally.fillImmediate - start.tally.fillImmediate == GrandTotal(demands)
      && r.tally.backordersCreated == start.tally.backordersCreated
      && r.tally.backorderCost == start.tally.backorderCost
    decreases |demands|
  {
    if demands != [] {
      var prefix := demands[..|demands| - 1];
      DecentralizedRunCovered(start, prefix, mfgName, cfg, dmax);
      DecentralizedDayCovered(DecentralizedRun(start, prefix, mfgName, cfg), |demands|, demands[|demands| - 1], mfgName, cfg, dmax);
    }
  }

  /** A centralized run that starts covered and never sees a demand above `dmax` serves all of it at once. */
  lemma {:induction false} CentralizedRunCovered(start: Centralized, demands: seq<seq<int>>, mfgName: string, cfg: Config,
                                                 dmax: int)
    requires Shaped(demands, |start.retailers|) && Bounded(demands, dmax) && cfg.ltCwToRetailer >= 1
    requires start.cw.backorder == 0 && AllCovered(start.retailers, 0, cfg.ltCwToRetailer, dmax)
    ensures var r := CentralizedRun(start, demands, mfgName, cfg);
      r.cw.backorder == 0 && AllCovered(r.retailers, |demands|, cfg.ltCwToRetailer, dmax)
      && r.tally.fillImmediate - start.tally.fillImmediate == GrandTotal(demands)
      && r.tally.backordersCreated == start.tally.backordersCreated
      && r.tally.backorderCost == start.tally.backorderCost
    decreases |demands|
  {
    if demands != [] {
      var prefix := demands[..|demands| - 1];
      CentralizedRunCovered(start, prefix, mfgName, cfg, dmax);
      CentralizedDayCovered(CentralizedRun(start, prefix, mfgName, cfg), |demands|, demands[|demands| - 1], mfgName, cfg, dmax);
    }
  }

  /**
   * A decentralized replication from the reset in which no demand exceeds
   * `dmax` and every retailer's base stock covers its lead time from the
   * manufacturer at `dmax`: every unit of demand is served at once, so the
   * fill rate is 1 whenever there is demand, and no backorder or backorder
   * cost is ever recorded.
   */
  lemma DecentralizedReplicationNoShortage(rs: seq<Ledger>, demands: seq<seq<int>>, mfgName: string, cfg: Config, dmax: int)
    requires Shaped(demands, |rs|) && Bounded(demands, dmax) && cfg.ltMfgToRetailer >= 1 && dmax >= 0
    requires forall k :: 0 <= k < |rs| ==> rs[k].baseStock >= dmax * cfg.ltMfgToRetailer
    ensures var r := DecentralizedRun(Decentralized(ResetAll(rs), Zero), demands, mfgName, cfg);
      r.tally.fillImmediate == r.tally.demandTotal == GrandTotal(demands)
      && r.tally.backordersCreated == 0 && r.tally.backorderCost == 0.0
  {
    var start := Decentralized(ResetAll(rs), Zero);
    ResetAllCovered(rs, cfg.ltMfgToRetailer, dmax);
    DecentralizedRunCovered(start, demands, mfgName, cfg, dmax);
    DecentralizedRunBalance(start, demands, mfgName, cfg);
  }

  /**
   * A centralized replication from the reset in which no demand exceeds
   * `dmax` and every retailer's base stock covers its lead time from the
   * warehouse at `dmax`: every unit of demand is served at once, and no
   * backorder or backorder cost is ever recorded, at the retailers or at
   * the warehouse, whatever the warehouse's own base stock.
   */
  lemma CentralizedReplicationNoShortage(w: Ledger, rs: seq<Ledger>, demands: seq<seq<int>>, mfgName: string, cfg: Config,
                                         dmax: int)
    requires Shaped(demands, |rs|) && Bounded(demands, dmax) && cfg.ltCwToRetailer >= 1 && dmax >= 0
    requires forall k :: 0 <= k < |rs| ==> rs[k].baseStock >= dmax * cfg.ltCwToRetailer
    ensures var r := CentralizedRun(Centralized(Reset(w), ResetAll(rs), Zero), demands, mfgName, cfg);
      r.tally.fillImmediate == r.tally.demandTotal == GrandTotal(demands)
      && r.tally.backordersCreated == 0 && r.tally.backorderCost == 0.0
  {
    var start := Centralized(Reset(w), ResetAll(rs), Zero);
    ResetAllCovered(rs, cfg.ltCwToRetailer, dmax);
    CentralizedRunCovered(start, demands, mfgName, cfg, dmax);
    CentralizedRunBalance(start, demands, mfgName, cfg);
  }

  /**
   * With the lead times of Params.java, a retailer's base stock of `dmax`
   * covers the one-day lead time from the warehouse, and one of 4 * `dmax`
   * covers the four-day lead time from the manufacturer: under those
   * settings, a table of demands none above `dmax` and base stocks of
   * 4 * `dmax` leave no shortage in either design.
   */
  lemma NoShortageAtDefaults(w: Ledger, rs: seq<Ledger>, demands: seq<seq<int>>, mfgName: string, dmax: int)
    requires Shaped(demands, |rs|) && Bounded(demands, dmax) && dmax >= 0
    requires forall k :: 0 <= k < |rs| ==> rs[k].baseStock >= 4 * dmax
    ensures var r := CentralizedRun(Centralized(Reset(w), ResetAll(rs), Zero), demands, mfgName, Defaults);
      r.tally.fillImmediate == r.tally.demandTotal == GrandTotal(demands) && r.tally.backordersCreated == 0
    ensures var r := DecentralizedRun(Decentralized(ResetAll(rs), Zero), demands, mfgName, Defaults);
      r.tally.fillImmediate == r.tally.demandTotal == GrandTotal(demands) && r.tally.backordersCreated == 0
  {
    CentralizedReplicationNoShortage(w, rs, demands, mfgName, Defaults, dmax);
    DecentralizedReplicationNoShortage(rs, demands, mfgName, Defaults, dmax);
  }
}
