/** Stock in motion between two nodes of the supply chain (Shipment.java). */
module Shipments {

  /** The condition the Shipment constructor raises. */
  datatype Error = IllegalArgument(message: string)

  datatype Result<T> = Ok(value: T) | Err(error: Error)

  /**
   * An immutable shipment: how many units, from which node to which node,
   * the absolute day it becomes available at its destination, and the
   * transport cost per unit of its leg. The Java getters are the field names;
   * a datatype value has no setters, so a shipment never changes.
   */
  datatype Shipment = Shipment(qty: int, src: string, dst: string, arriveDay: int, transportCostPerUnit: real)
  {
    /** The constructor's guard: only positive quantities are shipped. */
    predicate Valid() { qty > 0 }
  }

  const NonPositiveQuantity := "Shipment quantity must be positive."

  /** The checked constructor: refuses a non-positive quantity, otherwise keeps its arguments. */
  function NewShipment(qty: int, src: string, dst: string, arriveDay: int, transportCostPerUnit: real): (r: Result<Shipment>)
    ensures r.Ok? <==> qty > 0
    ensures r.Err? ==> r.error == IllegalArgument(NonPositiveQuantity)
    ensures r.Ok? ==> r.value.Valid()
    ensures r.Ok? ==> r.value.qty == qty && r.value.src == src && r.value.dst == dst
                      && r.value.arriveDay == arriveDay && r.value.transportCostPerUnit == transportCostPerUnit
  {
    if qty <= 0 then Err(IllegalArgument(NonPositiveQuantity))
    else Ok(Shipment(qty, src, dst, arriveDay, transportCostPerUnit))
  }

  predicate AllValid(s: seq<Shipment>)
  {
    forall i :: 0 <= i < |s| ==> s[i].Valid()
  }

  /** Stock on order: the sum of the quantities of a list of shipments. */
  function TotalQty(s: seq<Shipment>): int
  {
    if s == [] then 0 else s[0].qty + TotalQty(s[1..])
  }

  /** The shipments that stay in transit on `day`, in their original order. */
  function Pending(s: seq<Shipment>, day: int): (r: seq<Shipment>)
    ensures |r| <= |s|
  {
    if s == [] then []
    else (if s[0].arriveDay == day then [] else [s[0]]) + Pending(s[1..], day)
  }

  /** The shipments that are delivered on `day`, in their original order. */
  function Arriving(s: seq<Shipment>, day: int): (r: seq<Shipment>)
    ensures |r| <= |s|
  {
    if s == [] then []
    else (if s[0].arriveDay == day then [s[0]] else []) + Arriving(s[1..], day)
  }

  lemma {:induction false} TotalQtyAppend(a: seq<Shipment>, b: seq<Shipment>)
    ensures TotalQty(a + b) == TotalQty(a) + TotalQty(b)
  {
    if a != [] {
      assert (a + b)[1..] == a[1..] + b;
      TotalQtyAppend(a[1..], b);
    } else {
      assert a + b == b;
    }
  }

  /** A list of valid shipments has a non-negative total, positive when non-empty. */
  lemma {:induction false} TotalQtyOfValid(s: seq<Shipment>)
    ensures AllValid(s) ==> TotalQty(s) >= 0
    ensures AllValid(s) && s != [] ==> TotalQty(s) > 0
  {
    if s != [] && AllValid(s) {
      assert AllValid(s[1..]) by {
        forall i | 0 <= i < |s[1..]| ensures s[1..][i].Valid() { assert s[1..][i] == s[i + 1]; }
      }
      TotalQtyOfValid(s[1..]);
    }
  }

  lemma {:induction false} PendingAppend(a: seq<Shipment>, b: seq<Shipment>, day: int)
    ensures Pending(a + b, day) == Pending(a, day) + Pending(b, day)
  {
    if a != [] {
      assert (a + b)[1..] == a[1..] + b;
      PendingAppend(a[1..], b, day);
    } else {
      assert a + b == b;
    }
  }

  lemma {:induction false} ArrivingAppend(a: seq<Shipment>, b: seq<Shipment>, day: int)
    ensures Arriving(a + b, day) == Arriving(a, day) + Arriving(b, day)
  {
    if a != [] {
      assert (a + b)[1..] == a[1..] + b;
      ArrivingAppend(a[1..], b, day);
    } else {
      assert a + b == b;
    }
  }

  /**
   * Arrival processing splits the list: the survivors and the delivered
   * shipments together are exactly the original shipments.
   */
  lemma {:induction false} SplitByArrival(s: seq<Shipment>, day: int)
    ensures multiset(Pending(s, day)) + multiset(Arriving(s, day)) == multiset(s)
  {
    if s != [] {
      var rest := s[1..];
      SplitByArrival(rest, day);
      assert s == [s[0]] + rest;
    }
  }

  /** The survivors' and the delivered shipments' quantities add up to the stock on order. */
  lemma {:induction false} SplitTotalQty(s: seq<Shipment>, day: int)
    ensures TotalQty(Pending(s, day)) + TotalQty(Arriving(s, day)) == TotalQty(s)
  {
    if s != [] {
      var rest := s[1..];
      SplitTotalQty(rest, day);
      assert TotalQty([s[0]]) == s[0].qty;
      if s[0].arriveDay == day {
        assert Arriving(s, day) == [s[0]] + Arriving(rest, day);
        assert Pending(s, day) == Pending(rest, day);
        TotalQtyAppend([s[0]], Arriving(rest, day));
      } else {
        assert Pending(s, day) == [s[0]] + Pending(rest, day);
        assert Arriving(s, day) == Arriving(rest, day);
        TotalQtyAppend([s[0]], Pending(rest, day));
      }
    }
  }

  /** Extending a prefix of `s` by one shipment extends its survivors and its deliveries accordingly. */
  lemma PrefixStep(s: seq<Shipment>, i: int, day: int)
    requires 0 <= i < |s|
    ensures Pending(s[..i + 1], day) == Pending(s[..i], day) + (if s[i].arriveDay == day then [] else [s[i]])
    ensures TotalQty(Arriving(s[..i + 1], day)) == TotalQty(Arriving(s[..i], day)) + (if s[i].arriveDay == day then s[i].qty else 0)
  {
    assert s[..i + 1] == s[..i] + [s[i]];
    PendingAppend(s[..i], [s[i]], day);
    ArrivingAppend(s[..i], [s[i]], day);
    TotalQtyAppend(Arriving(s[..i], day), Arriving([s[i]], day));
    assert Pending([s[i]], day) == (if s[i].arriveDay == day then [] else [s[i]]) + Pending([], day);
    assert Arriving([s[i]], day) == (if s[i].arriveDay == day then [s[i]] else []) + Arriving([], day);
  }

  /**
   * One step of a scan over `s` that removes the shipments due on `day` from a
   * live list: the live list holds the survivors among the first `i`
   * shipments followed by the unscanned rest, and the cursor `j` sits on
   * shipment `i`. Removing it, or stepping past it, keeps that shape for i + 1.
   */
  lemma ScanStep(s: seq<Shipment>, i: int, day: int, live: seq<Shipment>, j: int)
    requires 0 <= i < |s|
    requires live == Pending(s[..i], day) + s[i..] && j == |Pending(s[..i], day)|
    ensures j < |live| && live[j] == s[i]
    ensures s[i].arriveDay == day ==>
              live[..j] + live[j + 1..] == Pending(s[..i + 1], day) + s[i + 1..] && j == |Pending(s[..i + 1], day)|
    ensures s[i].arriveDay != day ==>
              live == Pending(s[..i + 1], day) + s[i + 1..] && j + 1 == |Pending(s[..i + 1], day)|
    ensures TotalQty(Arriving(s[..i + 1], day)) == TotalQty(Arriving(s[..i], day)) + (if s[i].arriveDay == day then s[i].qty else 0)
  {
    var kept := Pending(s[..i], day);
    PrefixStep(s, i, day);
    assert s[i..] == [s[i]] + s[i + 1..];
    if s[i].arriveDay == day {
      assert live[..j] == kept && live[j + 1..] == s[i + 1..];
    } else {
      assert live == (kept + [s[i]]) + s[i + 1..];
    }
  }

  /** A shipment survives arrival processing on `day` exactly when it is not due that day. */
  lemma {:induction false} PendingMembership(s: seq<Shipment>, day: int, sh: Shipment)
    ensures sh in Pending(s, day) <==> sh in s && sh.arriveDay != day
  {
    if s != [] {
      PendingMembership(s[1..], day, sh);
      assert s == [s[0]] + s[1..];
    }
  }

  /** A shipment is delivered on `day` exactly when it is in transit and due that day. */
  lemma {:induction false} ArrivingMembership(s: seq<Shipment>, day: int, sh: Shipment)
    ensures sh in Arriving(s, day) <==> sh in s && sh.arriveDay == day
  {
    if s != [] {
      ArrivingMembership(s[1..], day, sh);
      assert s == [s[0]] + s[1..];
    }
  }

  /** The survivors and the deliveries of a list of valid shipments are valid. */
  lemma SplitValid(s: seq<Shipment>, day: int)
    requires AllValid(s)
    ensures AllValid(Pending(s, day)) && AllValid(Arriving(s, day))
  {
    forall i | 0 <= i < |Pending(s, day)| ensures Pending(s, day)[i].Valid() {
      PendingMembership(s, day, Pending(s, day)[i]);
      var j :| 0 <= j < |s| && s[j] == Pending(s, day)[i];
    }
    forall i | 0 <= i < |Arriving(s, day)| ensures Arriving(s, day)[i].Valid() {
      ArrivingMembership(s, day, Arriving(s, day)[i]);
      var j :| 0 <= j < |s| && s[j] == Arriving(s, day)[i];
    }
  }
}
