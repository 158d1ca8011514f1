/** What shipping a box posts to the ledger. */
module Postings {
  import opened Wrappers
  import opened Sums
  import opened OutboundTables
  import opened OutboundSteps
  import opened OutboundInvariant

  /** What the ledger says left in one box. */
  function OutOfBox(box: nat, item: Item): LedgerEntry -> real {
    (e: LedgerEntry) => if e.voucher == SalesShip(box) && e.item == item then -e.quantity else 0.0
  }

  lemma {:induction false} ShipItemsPost(
    k: Stock, rows: seq<BoxItem>, box: nat, list: nat, packing: nat, items: seq<Item>, b: nat, item: Item)
    requires ShipItems(k, rows, box, list, packing, items).Ok?
    requires forall i, j :: 0 <= i < j < |items| ==> items[i] != items[j]
    ensures Total(ShipItems(k, rows, box, list, packing, items).value.ledger, OutOfBox(b, item))
              == Total(k.ledger, OutOfBox(b, item))
               + (if b == box && item in items then Max(Total(rows, InBox(box, item)), 0.0) else 0.0)
  {
    if |items| > 0 {
      var n := |items| - 1;
      ShipItemsPost(k, rows, box, list, packing, items[..n], b, item);
      var t := ShipItems(k, rows, box, list, packing, items[..n]).value;
      TotalPush(t.ledger, LedgerEntry(items[n], -Total(rows, InBox(box, items[n])), SalesShip(box)), OutOfBox(b, item));
    }
  }

  lemma InBoxTotals(s: State, box: nat, item: Item)
    requires BoxItemsFit(s.boxes, s.boxItems)
    ensures 0.0 <= Total(s.boxItems, InBox(box, item))
    ensures item !in ItemsInBox(s.boxItems, box) ==> Total(s.boxItems, InBox(box, item)) == 0.0
    ensures !HasList(s.boxes, box) ==> Total(s.boxItems, InBox(box, item)) == 0.0
  {
    TotalNonNegative(s.boxItems, InBox(box, item));
    if !HasList(s.boxes, box) || item !in ItemsInBox(s.boxItems, box) {
      TotalZero(s.boxItems, InBox(box, item), |s.boxItems|);
    }
  }

  /** Shipping a box that has not left posts, item by item, exactly what is in it. */
  lemma ShipBoxPosts(s: State, box: nat, b: nat, item: Item)
    requires BoxItemsFit(s.boxes, s.boxItems) && ShipBox(s, box).Ok? && !s.boxes[box].shipped
    ensures Total(ShipBox(s, box).value.ledger, OutOfBox(b, item))
              == Total(s.ledger, OutOfBox(b, item)) + (if b == box then Total(s.boxItems, InBox(box, item)) else 0.0)
  {
    var list := s.boxes[box].list.value;
    var packing := if s.boxes[box].packing.Some? then s.boxes[box].packing else s.lists[list].packing;
    ShipItemsPost(Stock(s.balances, s.lines, s.ledger), s.boxItems, box, list, packing.value,
                  ItemsInBox(s.boxItems, box), b, item);
    InBoxTotals(s, box, item);
  }

  lemma ShippedBoxes(s: State, box: nat)
    requires ShipBox(s, box).Ok?
    ensures var t := ShipBox(s, box).value;
            && t.boxItems == s.boxItems && t.orderLines == s.orderLines && t.reversals == s.reversals
            && t.backorders == s.backorders && t.reconciliations == s.reconciliations
            && |t.boxes| == |s.boxes| && (forall b :: 0 <= b < |s.boxes| ==> t.boxes[b].list == s.boxes[b].list)
            && (forall b :: 0 <= b < |s.boxes| ==> t.boxes[b].shipped == (s.boxes[b].shipped || b == box))
            && (s.boxes[box].shipped ==> t == s)
  {
  }
}
