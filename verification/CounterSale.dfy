/** Counter sales: the same allocation without shortage rows, and a completion that boxes and ships all
    that was picked in one go. */
module CounterSale {
  import opened Wrappers
  import opened Sums
  import opened OutboundTables
  import opened OutboundSteps
  import opened OutboundEffects
  import opened OutboundInvariant
  import opened Fefo
  import opened PackKeeps
  import opened Postings
  import Reconcile
  import ShipKeeps

  datatype Demand = Demand(item: Item, quantity: real)

  /** The demands of a cart allocated one after the other. */
  function SellAll(s: State, list: nat, demands: seq<Demand>): (r: State)
    requires list < |s.lists|
    ensures r.lists == s.lists && r == s.(balances := r.balances, lines := r.lines)
  {
    if |demands| == 0 then s
    else
      var last := demands[|demands| - 1];
      Allocate(SellAll(s, list, demands[..|demands| - 1]), list, last.item, last.quantity, false)
  }

  /** What a demand could not get. */
  function Short(s: State, list: nat, d: Demand): real
    requires list < |s.lists|
  {
    if d.quantity <= 0.0 then d.quantity
    else Max(d.quantity - Total(CandidatesFor(s, list, d.item), AvailableAt(s.balances)), 0.0)
  }

  function Unmet(s: State, list: nat, demands: seq<Demand>): seq<Demand>
    requires list < |s.lists|
  {
    if |demands| == 0 then []
    else
      var head, last := demands[..|demands| - 1], demands[|demands| - 1];
      var short := Short(SellAll(s, list, head), list, last);
      if short > 0.0 then Unmet(s, list, head) + [Demand(last.item, short)] else Unmet(s, list, head)
  }

  function DemandOf(item: Item): Demand -> real { (d: Demand) => if d.item == item then d.quantity else 0.0 }

  lemma {:induction false} SlicesOf(s: State, list: nat, cands: seq<nat>, need: real, k: nat, item: Item)
    requires k <= |cands|
    requires forall c :: 0 <= c < |cands| ==> cands[c] < |s.balances| && s.balances[cands[c]].item == item
    ensures forall i :: 0 <= i < |SliceLines(s, list, cands, need, k)| ==>
              SliceLines(s, list, cands, need, k)[i].item == item
  {
    if k > 0 {
      SlicesOf(s, list, cands, need, k - 1, item);
    }
  }

  lemma AllocatedFor(s: State, list: nat, d: Demand, item: Item)
    requires list < |s.lists| && 0.0 < d.quantity
    ensures var added := NewLines(s, list, d.item, d.quantity, false);
            Total(added, AllocatedOf(item)) == if item == d.item then Total(added, AllocAny()) else 0.0
  {
    var added, cands := NewLines(s, list, d.item, d.quantity, false), CandidatesFor(s, list, d.item);
    SlicesOf(s, list, cands, d.quantity, |cands|, d.item);
    if item == d.item {
      TotalSame(added, AllocatedOf(item), added, AllocAny());
    } else {
      TotalZero(added, AllocatedOf(item), |added|);
    }
  }

  lemma SoldLine(s: State, list: nat, d: Demand, item: Item)
    requires list < |s.lists| && 0.0 < d.quantity
    ensures Total(Allocate(s, list, d.item, d.quantity, false).lines, AllocatedOf(item))
            == Total(s.lines, AllocatedOf(item)) + (if item == d.item then d.quantity - Short(s, list, d) else 0.0)
  {
    AllocationTotals(s, list, d.item, d.quantity);
    var added := NewLines(s, list, d.item, d.quantity, false);
    var short := ShortageLine(list, d.item, Short(s, list, d));
    TotalPush(s.lines + added, short, AllocAny());
    TotalAppend(s.lines, added, AllocAny());
    TotalAppend(s.lines, added, AllocatedOf(item));
    AllocatedFor(s, list, d, item);
  }

  /** What a cart asks for of an item is reserved or reported as short, to the last unit. */
  lemma {:induction false} SoldOrShort(s: State, list: nat, demands: seq<Demand>, item: Item)
    requires list < |s.lists| && forall i :: 0 <= i < |demands| ==> 0.0 < demands[i].quantity
    ensures Total(SellAll(s, list, demands).lines, AllocatedOf(item)) + Total(Unmet(s, list, demands), DemandOf(item))
              == Total(s.lines, AllocatedOf(item)) + Total(demands, DemandOf(item))
  {
    if |demands| > 0 {
      var n := |demands| - 1;
      var head, last := demands[..n], demands[n];
      SoldOrShort(s, list, head, item);
      var t := SellAll(s, list, head);
      SoldLine(t, list, last, item);
      TotalPush(Unmet(s, list, head), Demand(last.item, Short(t, list, last)), DemandOf(item));
      SumSame(demands, DemandOf(item), head, DemandOf(item), n);
    }
  }

  // Completing a sale

  function PositiveOpenIn(list: nat): Line -> real {
    (l: Line) => if l.list == list && l.status != Shortage then Max(l.alloc - l.picked, 0.0) else 0.0
  }

  /** Box the picked total of an item. */
  function AssignAllOf(s: State, box: nat, list: nat, item: Item): (r: Outcome)
    ensures r.Ok? ==> r.value == s.(boxItems := r.value.boxItems, lines := r.value.lines)
  {
    var q := Total(s.lines, PickedOf(list, item));
    if q > 0.0 then AssignToBox(s, box, list, item, q) else Ok(s)
  }

  /** Box the picked total of each item, in line order. */
  function AssignPicked(s: State, box: nat, list: nat, items: seq<Item>): (r: Outcome)
    ensures r.Ok? ==> r.value == s.(boxItems := r.value.boxItems, lines := r.value.lines)
  {
    if |items| == 0 then Ok(s)
    else match AssignPicked(s, box, list, items[..|items| - 1])
      case Err(e) => Err(e)
      case Ok(t) => AssignAllOf(t, box, list, items[|items| - 1])
  }

  function CompleteSale(s: State, list: nat): Outcome {
    if list >= |s.lists| then Err(NotFound)
    else if s.lists[list].fulfilment != ForCounter then Err(NotCounterSale)
    else if Total(s.lines, PositiveOpenIn(list)) > 0.0001 then Err(NotReady)
    else match OpenBox(s, Some(list), None)
      case Err(e) => Err(e)
      case Ok(m) => match AssignPicked(m, |s.boxes|, list, Reconcile.ItemsOnList(s.lines, list, |s.lines|))
        case Err(e) => Err(e)
        case Ok(t) => ShipBox(t, |s.boxes|)
  }

  /** The state just before the sale's box is shipped. */
  function Boxed(s: State, list: nat): State
    requires CompleteSale(s, list).Ok?
  {
    AssignPicked(OpenBox(s, Some(list), None).value, |s.boxes|, list,
                 Reconcile.ItemsOnList(s.lines, list, |s.lines|)).value
  }

  lemma {:induction false} AssignPickedFits(s: State, box: nat, list: nat, items: seq<Item>)
    requires AssignPicked(s, box, list, items).Ok? && BoxItemsFit(s.boxes, s.boxItems)
    ensures BoxItemsFit(s.boxes, AssignPicked(s, box, list, items).value.boxItems)
  {
    if |items| > 0 {
      AssignPickedFits(s, box, list, items[..|items| - 1]);
    }
  }

  /** A measure that takes no notice of the sale's box takes none of the boxing loop. */
  lemma {:induction false} AssignPickedElsewhere(s: State, box: nat, list: nat, items: seq<Item>, f: BoxItem -> real)
    requires AssignPicked(s, box, list, items).Ok? && forall item, q :: f(BoxItem(box, item, q)) == 0.0
    ensures Total(AssignPicked(s, box, list, items).value.boxItems, f) == Total(s.boxItems, f)
  {
    if |items| > 0 {
      var n := |items| - 1;
      AssignPickedElsewhere(s, box, list, items[..n], f);
      var t := AssignPicked(s, box, list, items[..n]).value;
      var q := Total(t.lines, PickedOf(list, items[n]));
      if q > 0.0 {
        TotalPush(t.boxItems, BoxItem(box, items[n], q), f);
      }
    }
  }

  /** Completing a sale is opening and filling a box, then shipping it. */
  lemma SaleIs(s: State, list: nat)
    requires CompleteSale(s, list).Ok?
    ensures var m := Boxed(s, list);
            && m == s.(boxes := s.boxes + [Box(Some(list), None, s.lists[list].packing, false, false)],
                       boxItems := m.boxItems, lines := m.lines)
            && CompleteSale(s, list) == ShipBox(m, |s.boxes|)
  {
  }

  lemma AssignedAllOf(s0: State, s: State, box: nat, list: nat, packed: Item, item: Item)
    requires Inv(s0, s) && AssignAllOf(s, box, list, packed).Ok?
    ensures var t := AssignAllOf(s, box, list, packed).value;
            && Inv(s0, t)
            && Total(t.lines, PickedOf(list, item)) == Total(s.lines, PickedOf(list, item))
            && Total(t.lines, ConsumedOf(list, item)) == Total(s.lines, ConsumedOf(list, item))
            && Total(t.boxItems, InBox(box, item))
                 == Total(s.boxItems, InBox(box, item))
                     + (if item == packed then Total(s.lines, PickedOf(list, item)) else 0.0)
  {
    var q := Total(s.lines, PickedOf(list, packed));
    if q > 0.0 {
      AssignKeeps(s0, s, box, list, packed, q);
      AssignedLines(s, list, packed, q);
      OnlyPackedTotals(s, AssignToBox(s, box, list, packed, q).value.lines, list, item);
      TotalPush(s.boxItems, BoxItem(box, packed, q), InBox(box, item));
    } else {
      PackedWithinPicked(s, list, packed);
    }
  }

  /** After the boxing loop the box holds, of each item, exactly what was picked. */
  lemma {:induction false} BoxHoldsPicked(s0: State, s: State, box: nat, list: nat, items: seq<Item>, item: Item)
    requires Inv(s0, s) && AssignPicked(s, box, list, items).Ok?
    requires forall i, j :: 0 <= i < j < |items| ==> items[i] != items[j]
    ensures var t := AssignPicked(s, box, list, items).value;
            && Inv(s0, t)
            && Total(t.lines, PickedOf(list, item)) == Total(s.lines, PickedOf(list, item))
            && Total(t.lines, ConsumedOf(list, item)) == Total(s.lines, ConsumedOf(list, item))
            && Total(t.boxItems, InBox(box, item))
                 == Total(s.boxItems, InBox(box, item))
                     + (if item in items then Total(s.lines, PickedOf(list, item)) else 0.0)
  {
    if |items| > 0 {
      var n := |items| - 1;
      BoxHoldsPicked(s0, s, box, list, items[..n], item);
      AssignedAllOf(s0, AssignPicked(s, box, list, items[..n]).value, box, list, items[n], item);
    }
  }

  ghost predicate Consumable(lines: seq<Line>) {
    forall i :: 0 <= i < |lines| ==> 0.0 <= lines[i].consumed <= lines[i].picked
  }

  lemma DeliveredLines(lines: seq<Line>, list: nat, item: Item, q: real, other: Item)
    requires Consumable(lines) && 0.0 <= q
    ensures var r := SpreadConsumed(lines, list, item, q);
            && Consumable(r)
            && Total(r, PickedOf(list, other)) == Total(lines, PickedOf(list, other))
            && Total(r, ConsumedOf(list, other))
                 == if other == item then Min(Total(lines, ConsumedOf(list, item)) + q,
                                              Total(lines, PickedOf(list, item)))
                    else Total(lines, ConsumedOf(list, other))
  {
    var r := SpreadConsumed(lines, list, item, q);
    forall i | 0 <= i < |lines| ensures
        && r[i] == lines[i].(consumed := r[i].consumed, status := r[i].status) && 0.0 <= r[i].consumed <= r[i].picked
        && (!OnKey(lines[i], list, item) ==> r[i] == lines[i])
    {
      ConsumedRow(lines, list, item, q, i);
    }
    TotalSame(r, PickedOf(list, other), lines, PickedOf(list, other));
    ShippingSpread(lines, list, item, q);
    if other != item {
      TotalSame(r, ConsumedOf(list, other), lines, ConsumedOf(list, other));
    }
  }

  lemma {:induction false} ShipItemsConsume(
    k: Stock, rows: seq<BoxItem>, box: nat, list: nat, packing: nat, items: seq<Item>, item: Item)
    requires ShipItems(k, rows, box, list, packing, items).Ok? && Consumable(k.lines)
    requires forall i, j :: 0 <= i < j < |items| ==> items[i] != items[j]
    ensures var r := ShipItems(k, rows, box, list, packing, items).value.lines;
            && Consumable(r)
            && Total(r, PickedOf(list, item)) == Total(k.lines, PickedOf(list, item))
            && Total(r, ConsumedOf(list, item))
                 == if item in items && Total(rows, InBox(box, item)) > 0.0
                    then Min(Total(k.lines, ConsumedOf(list, item)) + Total(rows, InBox(box, item)),
                             Total(k.lines, PickedOf(list, item)))
                    else Total(k.lines, ConsumedOf(list, item))
  {
    if |items| > 0 {
      var n := |items| - 1;
      ShipItemsConsume(k, rows, box, list, packing, items[..n], item);
      var t := ShipItems(k, rows, box, list, packing, items[..n]).value;
      if Total(rows, InBox(box, items[n])) > 0.0 {
        DeliveredLines(t.lines, list, items[n], Total(rows, InBox(box, items[n])), item);
      }
    }
  }

  /** When everything picked of an item has been consumed, so has every line of it. */
  lemma AllConsumed(lines: seq<Line>, list: nat, item: Item, i: nat)
    requires Consumable(lines) && i < |lines| && OnKey(lines[i], list, item)
    requires Total(lines, ConsumedOf(list, item)) == Total(lines, PickedOf(list, item))
    ensures lines[i].consumed == lines[i].picked
  {
    ShipRoomTotal(lines, list, item);
    TotalAtLeastRow(lines, i, ShipRoom(list, item));
  }

  lemma FreshBox(s0: State, s: State, item: Item)
    requires Inv(s0, s)
    ensures Total(s.boxItems, InBox(|s.boxes|, item)) == 0.0 && Total(s.ledger, OutOfBox(|s.boxes|, item)) == 0.0
  {
    InBoxTotals(s, |s.boxes|, item);
    TotalZero(s.ledger, OutOfBox(|s.boxes|, item), |s.ledger|);
  }

  lemma BoxedHoldsPicked(s0: State, s: State, list: nat, item: Item)
    requires Inv(s0, s) && CompleteSale(s, list).Ok?
    ensures var t, box := Boxed(s, list), |s.boxes|;
            && Inv(s0, t) && |t.boxes| == box + 1 && t.boxes[box].list == Some(list) && !t.boxes[box].shipped
            && ShipBox(t, box).Ok? && CompleteSale(s, list) == ShipBox(t, box) && t.ledger == s.ledger
            && Total(t.boxItems, InBox(box, item)) == Total(s.lines, PickedOf(list, item))
               == Total(t.lines, PickedOf(list, item))
            && Total(t.lines, ConsumedOf(list, item)) == Total(s.lines, ConsumedOf(list, item))
  {
    OpenBoxKeeps(s0, s, Some(list), None);
    FreshBox(s0, s, item);
    var items := Reconcile.ItemsOnList(s.lines, list, |s.lines|);
    BoxHoldsPicked(s0, OpenBox(s, Some(list), None).value, |s.boxes|, list, items, item);
    if item !in items {
      TotalZero(s.lines, PickedOf(list, item), |s.lines|);
    }
  }

  lemma CompleteSaleKeeps(s0: State, s: State, list: nat)
    requires Inv(s0, s) && CompleteSale(s, list).Ok?
    ensures Inv(s0, CompleteSale(s, list).value)
  {
    BoxedHoldsPicked(s0, s, list, "");
    ShipKeeps.ShipKeeps(s0, Boxed(s, list), |s.boxes|);
  }

  function StockOfState(s: State): Stock { Stock(s.balances, s.lines, s.ledger) }

  lemma SaleConsumes(s0: State, s: State, list: nat, item: Item)
    requires Inv(s0, s) && CompleteSale(s, list).Ok?
    ensures var t := CompleteSale(s, list).value;
            && Consumable(t.lines)
            && Total(t.lines, ConsumedOf(list, item)) == Total(t.lines, PickedOf(list, item))
  {
    BoxedHoldsPicked(s0, s, list, item);
    var t, box := Boxed(s, list), |s.boxes|;
    var packing := t.boxes[box].packing;
    assert Consumable(t.lines);
    ShipItemsConsume(StockOfState(t), t.boxItems, box, list, packing.value, ItemsInBox(t.boxItems, box), item);
    InBoxTotals(t, box, item);
    PackedWithinPicked(t, list, item);
  }

  /** A completed sale has sent out, of every item, exactly what was picked on its list: the ledger says
      so for the new box, every line of the list is consumed to what was picked, and the list is closed. */
  lemma SaleShipsWhatWasPicked(s0: State, s: State, list: nat, item: Item)
    requires Inv(s0, s) && CompleteSale(s, list).Ok?
    ensures var t := CompleteSale(s, list).value;
            && Inv(s0, t)
            && Total(t.ledger, OutOfBox(|s.boxes|, item)) == Total(s.lines, PickedOf(list, item))
            && (forall i :: 0 <= i < |t.lines| && t.lines[i].list == list ==> t.lines[i].consumed == t.lines[i].picked)
            && t.lists[list].consumed && t.lists[list].status == ListCompleted
  {
    BoxedHoldsPicked(s0, s, list, item);
    var m, t, box := Boxed(s, list), CompleteSale(s, list).value, |s.boxes|;
    CompleteSaleKeeps(s0, s, list);
    ShipBoxPosts(m, box, box, item);
    FreshBox(s0, s, item);
    forall i | 0 <= i < |t.lines| && t.lines[i].list == list ensures t.lines[i].consumed == t.lines[i].picked {
      SaleConsumes(s0, s, list, t.lines[i].item);
      AllConsumed(t.lines, list, t.lines[i].item, i);
    }
  }
}
