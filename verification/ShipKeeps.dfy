/** Shipping a box keeps the outbound invariants: item by item, while the box is being emptied. */
module ShipKeeps {
  import opened Wrappers
  import opened Sums
  import opened OutboundTables
  import opened OutboundSteps
  import opened OutboundEffects
  import opened OutboundInvariant
  import opened PackKeeps

  function Marked(s: State, box: nat): State
    requires box < |s.boxes|
  {
    s.(boxes := s.boxes[box := s.boxes[box].(shipped := true, loaded := true)])
  }

  /** The tables while a marked box is being shipped. */
  function With(s: State, k: Stock): State {
    s.(balances := k.balances, lines := k.lines, ledger := k.ledger)
  }

  function StockOf(s: State): Stock { Stock(s.balances, s.lines, s.ledger) }

  /** An item not yet taken out of the marked box leaves room for its quantity in what may ship. */
  ghost predicate PendingAt(s: State, box: nat, list: nat, item: Item) {
    Total(s.ledger, ShippedOf(s.boxes, list, item)) + Total(s.boxItems, InBox(box, item))
      <= Total(s.boxItems, InShippedBoxes(s.boxes, list, item))
          + Total(s.reversals, LateReversedOf(s.boxes, list, item))
  }

  ghost predicate Emptying(s0: State, s: State, box: nat, list: nat, done: seq<Item>) {
    && Inv(s0, s)
    && HasList(s.boxes, box) && s.boxes[box].shipped && s.boxes[box].list == Some(list)
    && (forall i :: 0 <= i < |s.ledger| && s.ledger[i].voucher == SalesShip(box) ==> s.ledger[i].item in done)
    && (forall item: Item :: item !in done ==> PendingAt(s, box, list, item))
  }

  lemma MarkingTotals(s: State, box: nat, list: nat, l: nat, i: Item)
    requires Structure(s) && HasList(s.boxes, box) && !s.boxes[box].shipped && s.boxes[box].list == Some(list)
    ensures var t := Marked(s, box);
            && Total(s.boxItems, InShippedBoxes(t.boxes, l, i))
                 == Total(s.boxItems, InShippedBoxes(s.boxes, l, i))
                     + (if l == list then Total(s.boxItems, InBox(box, i)) else 0.0)
            && Total(s.boxItems, BoxedOf(t.boxes, l, i)) == Total(s.boxItems, BoxedOf(s.boxes, l, i))
            && Total(s.ledger, ShippedOf(t.boxes, l, i)) == Total(s.ledger, ShippedOf(s.boxes, l, i))
            && Total(s.reversals, LateReversedOf(t.boxes, l, i)) == Total(s.reversals, LateReversedOf(s.boxes, l, i))
            && 0.0 <= Total(s.boxItems, InBox(box, i))
  {
    var t := Marked(s, box);
    TotalNonNegative(s.boxItems, InBox(box, i));
    if l == list {
      TotalAdd(s.boxItems, InShippedBoxes(s.boxes, l, i), s.boxItems, InBox(box, i), s.boxItems,
               InShippedBoxes(t.boxes, l, i));
    } else {
      TotalSame(s.boxItems, InShippedBoxes(s.boxes, l, i), s.boxItems, InShippedBoxes(t.boxes, l, i));
    }
    TotalSame(s.boxItems, BoxedOf(t.boxes, l, i), s.boxItems, BoxedOf(s.boxes, l, i));
    TotalSame(s.ledger, ShippedOf(t.boxes, l, i), s.ledger, ShippedOf(s.boxes, l, i));
    TotalSame(s.reversals, LateReversedOf(t.boxes, l, i), s.reversals, LateReversedOf(s.boxes, l, i));
  }

  lemma MarkingKeepsBoxes(s: State, box: nat, list: nat)
    requires Structure(s) && Packings(s) && Shipments(s) && ShippedOnce(s)
    requires HasList(s.boxes, box) && !s.boxes[box].shipped && s.boxes[box].list == Some(list)
    ensures var t := Marked(s, box);
            Packings(t) && Shipments(t) && ShippedOnce(t) && forall item: Item :: PendingAt(t, box, list, item)
  {
    var t := Marked(s, box);
    forall l: nat, i: Item
      ensures PackedOn(t.lines, t.boxes, t.boxItems, l, i)
      ensures ShippedOn(t.lines, t.boxes, t.boxItems, t.ledger, t.reversals, l, i)
    {
      assert PackedAt(s, l, i) && ShippedAt(s, l, i);
      MarkingTotals(s, box, list, l, i);
    }
    forall i: Item ensures PendingAt(t, box, list, i) {
      assert ShippedAt(s, list, i);
      MarkingTotals(s, box, list, list, i);
    }
  }

  lemma MarkingKeepsRest(s0: State, s: State, box: nat)
    requires Structure(s) && Reservations(s) && Drift(s0, s) && box < |s.boxes|
    ensures var t := Marked(s, box); Structure(t) && Reservations(t) && Drift(s0, t)
  {
  }

  lemma MarkingStarts(s0: State, s: State, box: nat, list: nat)
    requires Inv(s0, s) && HasList(s.boxes, box) && !s.boxes[box].shipped && s.boxes[box].list == Some(list)
    ensures Emptying(s0, Marked(s, box), box, list, [])
  {
    MarkingKeepsBoxes(s, box, list);
    MarkingKeepsRest(s0, s, box);
  }

  /** Lines that differ in what was consumed, and in status only where something was. */
  ghost predicate OnlyConsumed(a: seq<Line>, b: seq<Line>) {
    |a| == |b| && forall i :: 0 <= i < |a| ==>
      && b[i] == a[i].(consumed := b[i].consumed, status := b[i].status)
      && 0.0 <= b[i].consumed <= b[i].picked
      && (b[i].status != a[i].status ==> 0.0 < b[i].consumed && b[i].status != Shortage)
  }

  lemma ShippedLines(s: State, list: nat, item: Item, q: real)
    requires Structure(s) && 0.0 <= q
    ensures var r := SpreadConsumed(s.lines, list, item, q);
            && OnlyConsumed(s.lines, r)
            && (forall i :: 0 <= i < |r| && !OnKey(s.lines[i], list, item) ==> r[i] == s.lines[i])
  {
    var r := SpreadConsumed(s.lines, list, item, q);
    forall i | 0 <= i < |r| ensures
        && r[i] == s.lines[i].(consumed := r[i].consumed, status := r[i].status) && 0.0 <= r[i].consumed <= r[i].picked
        && (r[i].status != s.lines[i].status ==> 0.0 < r[i].consumed && r[i].status != Shortage)
        && (!OnKey(s.lines[i], list, item) ==> r[i] == s.lines[i])
    {
      ConsumedRow(s.lines, list, item, q, i);
    }
  }

  lemma OnlyConsumedTotals(s: State, lines: seq<Line>, list: nat, item: Item)
    requires OnlyConsumed(s.lines, lines)
    ensures Total(lines, PickedOf(list, item)) == Total(s.lines, PickedOf(list, item))
    ensures Total(lines, PackedOf(list, item)) == Total(s.lines, PackedOf(list, item))
    ensures Total(lines, OpenOf(item)) == Total(s.lines, OpenOf(item))
  {
    TotalSame(lines, PickedOf(list, item), s.lines, PickedOf(list, item));
    TotalSame(lines, PackedOf(list, item), s.lines, PackedOf(list, item));
    TotalSame(lines, OpenOf(item), s.lines, OpenOf(item));
  }

  /** A shipment of `q` of one item out of a packing row, as a change of the tables. */
  function Shipped(s: State, b: nat, box: nat, list: nat, item: Item, q: real): State
    requires b < |s.balances|
  {
    With(s, Stock(s.balances[b := s.balances[b].(actual := Max(s.balances[b].actual - q, 0.0))],
                  SpreadConsumed(s.lines, list, item, q),
                  s.ledger + [LedgerEntry(item, -q, SalesShip(box))]))
  }

  ghost predicate CanShip(s: State, b: nat, item: Item, q: real) {
    && b < |s.balances| && s.balances[b].item == item && AtPacking(s.locations, s.balances[b])
    && 0.0 < q <= s.balances[b].actual + 0.0001
  }

  lemma ShippedKeepsStructure(s: State, b: nat, box: nat, list: nat, item: Item, q: real)
    requires Structure(s) && CanShip(s, b, item, q)
    ensures Structure(Shipped(s, b, box, list, item, q))
  {
    var t := Shipped(s, b, box, list, item, q);
    ShippedLines(s, list, item, q);
    forall i | 0 <= i < |t.lines| ensures LineFits(t.locations, t.balances, |t.lists|, t.lines[i]) {
      assert LineFits(s.locations, s.balances, |s.lists|, s.lines[i]);
    }
    assert forall i :: 0 <= i < |s.balances| ==>
      RowFits(s.locations, s.balances[i]) && RowFits(t.locations, t.balances[i]);
  }

  lemma ShippedKeepsReservations(s: State, b: nat, box: nat, list: nat, item: Item, q: real)
    requires Structure(s) && Reservations(s) && CanShip(s, b, item, q)
    ensures Reservations(Shipped(s, b, box, list, item, q))
  {
    var t := Shipped(s, b, box, list, item, q);
    ShippedLines(s, list, item, q);
    forall c: nat | c < |t.balances| ensures ReservedOn(t.balances, t.lines, c) {
      assert ReservedAt(s, c);
      TotalSame(t.lines, OpenOn(c), s.lines, OpenOn(c));
      TotalSame(t.lines, PositiveOpenOn(c), s.lines, PositiveOpenOn(c));
    }
  }

  /** One deduction adds at most the absolute tolerance to stock on hand plus ledger. */
  lemma ShippedKeepsDrift(s0: State, s: State, b: nat, box: nat, list: nat, item: Item, q: real)
    requires Structure(s) && Drift(s0, s) && CanShip(s, b, item, q)
    ensures Drift(s0, Shipped(s, b, box, list, item, q))
  {
    var t := Shipped(s, b, box, list, item, q);
    var e := LedgerEntry(item, -q, SalesShip(box));
    ShippedLines(s, list, item, q);
    forall i: Item ensures DriftOn(s0.balances, t.balances, t.lines, t.ledger, i) {
      assert DriftAt(s0, s, i);
      OnlyConsumedTotals(s, t.lines, list, i);
      TotalUpdate(s.balances, b, t.balances[b], ActualOf(i));
      TotalUpdate(s.balances, b, t.balances[b], ReservedOf(i));
      TotalPush(s.ledger, e, LedgerOf(i));
      TotalPush(s.ledger, e, ShipmentsOf(i));
    }
  }

  lemma ConsumptionArithmetic(consumed: real, shipped: real, picked: real, boxed: real, late: real, q: real)
    requires consumed <= shipped <= consumed + picked * 0.0001 + late
    requires shipped + q <= boxed + late && boxed <= picked + picked * 0.0001
    ensures Min(consumed + q, picked) <= shipped + q <= Min(consumed + q, picked) + picked * 0.0001 + late
  {
  }

  lemma InShippedWithinPicked(s: State, list: nat, item: Item)
    requires Structure(s) && PackedAt(s, list, item)
    ensures Total(s.boxItems, InShippedBoxes(s.boxes, list, item))
              <= Total(s.lines, PickedOf(list, item)) + Total(s.lines, PickedOf(list, item)) * 0.0001
  {
    PackedWithinPicked(s, list, item);
    TotalLe(s.boxItems, InShippedBoxes(s.boxes, list, item), s.boxItems, BoxedOf(s.boxes, list, item));
  }

  lemma ConsumedTotals(s: State, list: nat, item: Item, q: real, l: nat, i: Item)
    requires Structure(s) && 0.0 <= q
    ensures Total(SpreadConsumed(s.lines, list, item, q), ConsumedOf(l, i))
              == if l == list && i == item then Min(Total(s.lines, ConsumedOf(l, i)) + q,
                                                    Total(s.lines, PickedOf(l, i)))
                 else Total(s.lines, ConsumedOf(l, i))
  {
    if l == list && i == item {
      ShippingSpread(s.lines, list, item, q);
    } else {
      ShippedLines(s, list, item, q);
      TotalSame(SpreadConsumed(s.lines, list, item, q), ConsumedOf(l, i), s.lines, ConsumedOf(l, i));
    }
  }

  /** What a shipment does to the sums the shipping law is about. */
  lemma ShippedTotals(s: State, b: nat, box: nat, list: nat, item: Item, q: real, l: nat, i: Item)
    requires Structure(s) && CanShip(s, b, item, q) && BoxList(s.boxes, box) == Some(list)
    ensures var t := Shipped(s, b, box, list, item, q);
            && Total(t.lines, PickedOf(l, i)) == Total(s.lines, PickedOf(l, i))
            && Total(t.ledger, ShippedOf(s.boxes, l, i))
                 == Total(s.ledger, ShippedOf(s.boxes, l, i)) + (if l == list && i == item then q else 0.0)
            && Total(t.lines, ConsumedOf(l, i))
                 == if l == list && i == item then
                     Min(Total(s.lines, ConsumedOf(l, i)) + q, Total(s.lines, PickedOf(l, i)))
                    else Total(s.lines, ConsumedOf(l, i))
  {
    var t := Shipped(s, b, box, list, item, q);
    ShippedLines(s, list, item, q);
    OnlyConsumedTotals(s, t.lines, l, i);
    TotalPush(s.ledger, LedgerEntry(item, -q, SalesShip(box)), ShippedOf(s.boxes, l, i));
    ConsumedTotals(s, list, item, q, l, i);
  }

  lemma ShippedKeepsShippedAt(s: State, b: nat, box: nat, list: nat, item: Item, q: real, l: nat, i: Item)
    requires Structure(s) && PackedAt(s, l, i) && ShippedAt(s, l, i) && CanShip(s, b, item, q)
    requires BoxList(s.boxes, box) == Some(list) && PendingAt(s, box, list, item)
             && q == Total(s.boxItems, InBox(box, item))
    ensures ShippedAt(Shipped(s, b, box, list, item, q), l, i)
  {
    ShippedTotals(s, b, box, list, item, q, l, i);
    if l == list && i == item {
      InShippedWithinPicked(s, list, item);
      ConsumptionArithmetic(Total(s.lines, ConsumedOf(l, i)), Total(s.ledger, ShippedOf(s.boxes, l, i)),
                            Total(s.lines, PickedOf(l, i)), Total(s.boxItems, InShippedBoxes(s.boxes, l, i)),
                            Total(s.reversals, LateReversedOf(s.boxes, l, i)), q);
    }
  }

  lemma ShippedKeepsBoxes(s: State, b: nat, box: nat, list: nat, item: Item, q: real)
    requires Structure(s) && Packings(s) && Shipments(s) && CanShip(s, b, item, q)
    requires BoxList(s.boxes, box) == Some(list) && PendingAt(s, box, list, item)
             && q == Total(s.boxItems, InBox(box, item))
    ensures var t := Shipped(s, b, box, list, item, q); Packings(t) && Shipments(t)
  {
    var t := Shipped(s, b, box, list, item, q);
    ShippedLines(s, list, item, q);
    forall l: nat, i: Item
      ensures PackedOn(t.lines, t.boxes, t.boxItems, l, i)
      ensures ShippedOn(t.lines, t.boxes, t.boxItems, t.ledger, t.reversals, l, i)
    {
      OnlyConsumedTotals(s, t.lines, l, i);
      ShippedKeepsShippedAt(s, b, box, list, item, q, l, i);
    }
  }

  lemma ShippedKeepsPending(s: State, b: nat, box: nat, list: nat, item: Item, q: real, other: Item)
    requires b < |s.balances| && PendingAt(s, box, list, other) && other != item
    ensures PendingAt(Shipped(s, b, box, list, item, q), box, list, other)
  {
    TotalPush(s.ledger, LedgerEntry(item, -q, SalesShip(box)), ShippedOf(s.boxes, list, other));
  }

  lemma ShippedKeeps(s0: State, s: State, b: nat, box: nat, list: nat, done: seq<Item>, item: Item, q: real)
    requires Emptying(s0, s, box, list, done) && item !in done && CanShip(s, b, item, q)
    requires q == Total(s.boxItems, InBox(box, item))
    ensures Emptying(s0, Shipped(s, b, box, list, item, q), box, list, done + [item])
  {
    var t := Shipped(s, b, box, list, item, q);
    ShippedKeepsStructure(s, b, box, list, item, q);
    ShippedKeepsReservations(s, b, box, list, item, q);
    ShippedKeepsDrift(s0, s, b, box, list, item, q);
    ShippedKeepsBoxes(s, b, box, list, item, q);
    forall other: Item | other !in done + [item] ensures PendingAt(t, box, list, other) {
      ShippedKeepsPending(s, b, box, list, item, q, other);
    }
  }

  predicate ItemShips(s: State, box: nat, list: nat, packing: nat, item: Item) {
    ShipItem(StockOf(s), s.boxItems, box, list, packing, item).Ok?
  }

  function AfterItem(s: State, box: nat, list: nat, packing: nat, item: Item): State
    requires ItemShips(s, box, list, packing, item)
  {
    With(s, ShipItem(StockOf(s), s.boxItems, box, list, packing, item).value)
  }

  lemma AfterItemIs(s: State, box: nat, list: nat, packing: nat, item: Item)
    requires ItemShips(s, box, list, packing, item) && IsPacking(s.locations, Some(packing))
    ensures var q, b := Total(s.boxItems, InBox(box, item)), FindRow(s.balances, item, packing);
            && (q > 0.0 ==> b.Some? && CanShip(s, b.value, item, q))
            && AfterItem(s, box, list, packing, item) == if q > 0.0 then Shipped(s, b.value, box, list, item, q) else s
  {
  }

  lemma ShipItemKeeps(s0: State, s: State, box: nat, list: nat, packing: nat, done: seq<Item>, item: Item)
    requires Emptying(s0, s, box, list, done) && item !in done && IsPacking(s.locations, Some(packing))
    requires ItemShips(s, box, list, packing, item)
    ensures Emptying(s0, AfterItem(s, box, list, packing, item), box, list, done + [item])
  {
    AfterItemIs(s, box, list, packing, item);
    var q := Total(s.boxItems, InBox(box, item));
    if q > 0.0 {
      ShippedKeeps(s0, s, FindRow(s.balances, item, packing).value, box, list, done, item, q);
    }
  }

  predicate ItemsShip(s: State, box: nat, list: nat, packing: nat, items: seq<Item>) {
    ShipItems(StockOf(s), s.boxItems, box, list, packing, items).Ok?
  }

  function AfterItems(s: State, box: nat, list: nat, packing: nat, items: seq<Item>): State
    requires ItemsShip(s, box, list, packing, items)
  {
    With(s, ShipItems(StockOf(s), s.boxItems, box, list, packing, items).value)
  }

  lemma LastItemIs(s: State, box: nat, list: nat, packing: nat, items: seq<Item>)
    requires |items| > 0 && ItemsShip(s, box, list, packing, items)
    ensures var head, last := items[..|items| - 1], items[|items| - 1];
            && ItemsShip(s, box, list, packing, head)
            && AfterItems(s, box, list, packing, head).locations == s.locations
            && ItemShips(AfterItems(s, box, list, packing, head), box, list, packing, last)
            && AfterItems(s, box, list, packing, items)
               == AfterItem(AfterItems(s, box, list, packing, head), box, list, packing, last)
  {
  }

  lemma {:induction false} ShipItemsKeep(s0: State, s: State, box: nat, list: nat, packing: nat, items: seq<Item>)
    requires Emptying(s0, s, box, list, []) && IsPacking(s.locations, Some(packing))
    requires forall i, j :: 0 <= i < j < |items| ==> items[i] != items[j]
    requires ItemsShip(s, box, list, packing, items)
    ensures Emptying(s0, AfterItems(s, box, list, packing, items), box, list, items)
  {
    if |items| > 0 {
      var n := |items| - 1;
      LastItemIs(s, box, list, packing, items);
      ShipItemsKeep(s0, s, box, list, packing, items[..n]);
      ShipItemKeeps(s0, AfterItems(s, box, list, packing, items[..n]), box, list, packing, items[..n], items[n]);
    }
  }

  /** Completing a list touches neither its packing location nor any sum. */
  lemma ListFlagsKeep(s0: State, s: State, lists: seq<PickList>)
    requires Inv(s0, s) && |s.lists| <= |lists|
    requires forall i :: 0 <= i < |lists| ==> lists[i].packing.Some? && IsPacking(s.locations, lists[i].packing)
    ensures Inv(s0, s.(lists := lists))
  {
  }

  lemma ShipKeeps(s0: State, s: State, box: nat)
    requires Inv(s0, s) && ShipBox(s, box).Ok?
    ensures Inv(s0, ShipBox(s, box).value)
  {
    if !s.boxes[box].shipped {
      var list := s.boxes[box].list.value;
      var packing := if s.boxes[box].packing.Some? then s.boxes[box].packing else s.lists[list].packing;
      MarkingStarts(s0, s, box, list);
      var m := Marked(s, box);
      ShipItemsKeep(s0, m, box, list, packing.value, ItemsInBox(s.boxItems, box));
      var t := AfterItems(m, box, list, packing.value, ItemsInBox(s.boxItems, box));
      ListFlagsKeep(s0, t, t.lists[list := t.lists[list].(consumed := true, status := ListCompleted)]);
    }
  }

  lemma SetLoadedKeeps(s0: State, s: State, box: nat, shipped: bool)
    requires Inv(s0, s) && box < |s.boxes| && (s.boxes[box].list.Some? ==> shipped == s.boxes[box].shipped)
    ensures Inv(s0, SetLoaded(s, box, shipped))
  {
    BoxesKeep(s0, s, s.boxes[box := s.boxes[box].(loaded := true, shipped := shipped)]);
  }

  lemma ShippedFlag(s: State, box: nat)
    requires ShipBox(s, box).Ok?
    ensures var t := ShipBox(s, box).value;
            |t.boxes| == |s.boxes| && t.boxes[box].shipped && t.boxes[box].list == s.boxes[box].list
  {
  }

  /** Every way of loading a box keeps the invariants. */
  lemma LoadingKeeps(s0: State, s: State, box: nat)
    requires Inv(s0, s)
    ensures MarkLoaded(s, box).Ok? ==> Inv(s0, MarkLoaded(s, box).value)
    ensures LoadBox(s, box).Ok? ==> Inv(s0, LoadBox(s, box).value)
  {
    if box < |s.boxes| {
      if s.boxes[box].shipped || s.boxes[box].list.None? {
        SetLoadedKeeps(s0, s, box, s.boxes[box].shipped);
        SetLoadedKeeps(s0, s, box, true);
      } else if ShipBox(s, box).Ok? {
        ShipKeeps(s0, s, box);
        ShippedFlag(s, box);
        SetLoadedKeeps(s0, ShipBox(s, box).value, box, true);
      }
    }
  }
}
