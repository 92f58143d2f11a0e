/** One inventory-holding location: a retailer, the warehouse or the manufacturer (NodeState.java). */
module Nodes {
  import opened Shipments

  /**
   * The abstract value of a node: its name, physical stock, unmet demand
   * carried forward, the shipments on their way to it (oldest first) and
   * its order-up-to target.
   */
  datatype Ledger = Ledger(name: string, onHand: int, backorder: int, inTransit: seq<Shipment>, baseStock: int)
  {
    /** Inventory position: stock on hand plus stock on order minus backorder liability. */
    function Position(): int
    {
      onHand + TotalQty(inTransit) - backorder
    }
  }

  class NodeState {
    const name: string
    var onHand: int
    var backorder: int
    /** The node's own in-transit list; callers change it in place. */
    var inTransit: seq<Shipment>
    var baseStock: int

    function AsLedger(): Ledger
      reads this
    {
      Ledger(name, onHand, backorder, inTransit, baseStock)
    }

    constructor (name: string)
      ensures AsLedger() == Ledger(name, 0, 0, [], 0)
    {
      this.name := name;
      onHand, backorder, inTransit, baseStock := 0, 0, [], 0;
    }

    /** Same as the plain constructor, except that the node starts with `initialStock` on hand. */
    constructor WithStock(name: string, initialStock: int)
      ensures AsLedger() == Ledger(name, initialStock, 0, [], 0)
    {
      this.name := name;
      onHand, backorder, inTransit, baseStock := initialStock, 0, [], 0;
    }

    method SetOnHand(onHand: int)
      modifies this`onHand
      ensures this.onHand == onHand
      ensures AsLedger() == old(AsLedger()).(onHand := onHand)
    {
      this.onHand := onHand;
    }

    method SetBackorder(backorder: int)
      modifies this`backorder
      ensures this.backorder == backorder
      ensures AsLedger() == old(AsLedger()).(backorder := backorder)
    {
      this.backorder := backorder;
    }

    method SetBaseStock(baseStock: int)
      modifies this`baseStock
      ensures this.baseStock == baseStock
      ensures AsLedger() == old(AsLedger()).(baseStock := baseStock)
    {
      this.baseStock := baseStock;
    }
  }

  /** No node occurs twice in a list of nodes. */
  ghost predicate Distinct(nodes: seq<NodeState>)
  {
    forall i, j :: 0 <= i < |nodes| && 0 <= j < |nodes| && i != j ==> nodes[i] != nodes[j]
  }

  /** The ledgers of a list of nodes, in the same order. */
  function Ledgers(nodes: seq<NodeState>): (ls: seq<Ledger>)
    reads nodes
    ensures |ls| == |nodes|
    ensures forall k :: 0 <= k < |nodes| ==> ls[k] == nodes[k].AsLedger()
  {
    seq(|nodes|, k reads nodes requires 0 <= k < |nodes| => nodes[k].AsLedger())
  }

  /** The ledgers of a node followed by a list of nodes. */
  lemma LedgersCons(n: NodeState, nodes: seq<NodeState>)
    ensures Ledgers([n] + nodes) == [n.AsLedger()] + Ledgers(nodes)
  {
    assert Ledgers([n] + nodes)[0] == n.AsLedger();
    forall k | 0 <= k < |nodes| ensures Ledgers([n] + nodes)[k + 1] == Ledgers(nodes)[k] {
      assert ([n] + nodes)[k + 1] == nodes[k];
    }
  }
}
