/** Which requests the outbound engine lets through, as conditions on the tables before the call, and what it
    writes down about them. */
module OutboundGuards {
  import opened Wrappers
  import opened Sums
  import opened OutboundTables
  import opened OutboundSteps
  import opened OutboundInvariant
  import opened BenchStock
  import opened CounterSale
  import opened PackKeeps
  import opened Postings
  import opened Reconcile
  import opened ReconcileKeeps

  // Opening documents

  /** A list is opened for an order, a wave or a counter sale, at a bench of its own warehouse. */
  lemma ListOpensIff(s: State, fulfilment: Fulfilment, warehouse: nat, packing: nat)
    ensures var r := OpenList(s, fulfilment, warehouse, packing);
            && (r.Ok? <==> fulfilment != Legacy && packing < |s.locations|
                           && s.locations[packing].kind == PackingArea && s.locations[packing].warehouse == warehouse)
            && (r.Ok? ==> r.value == s.(lists := r.value.lists) && |r.value.lists| == |s.lists| + 1
                          && r.value.lists[..|s.lists|] == s.lists)
            && (r.Ok? ==> r.value.lists[|s.lists|].packing == Some(packing)
                          && r.value.lists[|s.lists|].fulfilment == fulfilment
                          && r.value.lists[|s.lists|].warehouse == warehouse
                          && r.value.lists[|s.lists|].status == Open && !r.value.lists[|s.lists|].consumed)
  {
  }

  /** A box is opened for a list there is, or for none, and packs where its list does. */
  lemma BoxOpensIff(s: State, list: Option<nat>, order: Option<nat>)
    ensures var r := OpenBox(s, list, order);
            && (r.Err? <==> list.Some? && |s.lists| <= list.value)
            && (r.Ok? ==> r.value == s.(boxes := r.value.boxes) && |r.value.boxes| == |s.boxes| + 1
                          && r.value.boxes[..|s.boxes|] == s.boxes)
            && (r.Ok? ==> r.value.boxes[|s.boxes|].list == list && r.value.boxes[|s.boxes|].order == order
                          && !r.value.boxes[|s.boxes|].shipped && !r.value.boxes[|s.boxes|].loaded)
            && (r.Ok? && list.Some? ==> r.value.boxes[|s.boxes|].packing == s.lists[list.value].packing)
            && (r.Ok? && list.None? ==> r.value.boxes[|s.boxes|].packing.None?)
  {
  }

  /** An order line is added once for a list, an order and an item, with nothing given to it yet. */
  lemma OrderLineAddedIff(s: State, list: nat, order: nat, item: Item, required: real)
    ensures var r := AddOrderLine(s, list, order, item, required);
            && (r.Ok? <==> 0.0 < required && forall k :: 0 <= k < |s.orderLines| ==>
                  s.orderLines[k].list != list || s.orderLines[k].order != order || s.orderLines[k].item != item)
            && (r.Ok? ==> r.value == s.(orderLines := s.orderLines + [OrderLine(list, order, item, required, 0.0)]))
  {
  }

  // Picking

  /** A line a scan may be for: still to be picked, of the item, and in the scanned bin if it names one. */
  ghost predicate MayMean(l: Line, list: nat, item: Item, bin: string) {
    && l.list == list && l.item == item && l.status in {Pending, InProgress}
    && (bin != "" && l.bin.Some? ==> l.bin.value == bin)
  }

  /** One in the scanned bin comes first, then the one that expires sooner, then the one with the lower id. */
  ghost predicate ComesFirst(lines: seq<Line>, i: nat, j: nat, bin: string)
    requires i < |lines| && j < |lines|
  {
    var a, b := lines[i], lines[j];
    var sooner := a.expiry.Some? && (b.expiry.None? || a.expiry.value < b.expiry.value);
    if a.bin == Some(bin) && b.bin != Some(bin) then true
    else if a.bin != Some(bin) && b.bin == Some(bin) then false
    else sooner || (a.expiry == b.expiry && i < j)
  }

  ghost predicate IsFirst(lines: seq<Line>, list: nat, item: Item, bin: string, i: nat) {
    && i < |lines| && MayMean(lines[i], list, item, bin)
    && forall j :: 0 <= j < |lines| && j != i && MayMean(lines[j], list, item, bin) ==> ComesFirst(lines, i, j, bin)
  }

  /** A scan without a line id is for the first of the lines it may mean, and for none only when there is none. */
  lemma ScanChooses(lines: seq<Line>, list: nat, item: Item, bin: string)
    ensures var r := BestLine(lines, list, item, bin, |lines|);
            && (forall i: nat :: r == Some(i) <==> IsFirst(lines, list, item, bin, i))
            && (r.None? <==> forall i :: 0 <= i < |lines| ==> !MayMean(lines[i], list, item, bin))
  {
    var r := BestLine(lines, list, item, bin, |lines|);
    forall l: Line ensures MayMean(l, list, item, bin) <==> Scannable(l, list, item, bin) {
    }
    if r.Some? {
      assert IsFirst(lines, list, item, bin, r.value);
    }
  }

  /** The line a scan addresses: the one it names, if that is on the list, or the first of those it may mean. */
  ghost predicate Addresses(s: State, input: PickInput, i: nat) {
    && i < |s.lines|
    && (if input.line.Some? then i == input.line.value && s.lines[i].list == input.list
        else IsFirst(s.lines, input.list, input.item, input.scannedBin, i))
  }

  /** Where the line's goods are expected: as the scan says, or else as the line does. */
  ghost function ExpectedBin(input: PickInput, l: Line): string {
    if input.expectedBin != "" then input.expectedBin else if l.bin.Some? then l.bin.value else ""
  }

  /** The line is still to be picked, holds what was scanned where it was scanned, and has room for the quantity. */
  ghost predicate Accepts(s: State, input: PickInput, l: Line) {
    && l.status !in {Shortage, LineCancelled, PickedFull, Delivered}
    && (input.item == "" || input.item == l.item)
    && (input.overridden || input.scannedBin == "" || ExpectedBin(input, l) == ""
        || input.scannedBin == ExpectedBin(input, l))
    && l.picked + (if input.quantity > 0.0 then input.quantity else 1.0)
         <= (if l.alloc > 0.0 then l.alloc else l.ordered) * 1.0001
    && (l.balance.Some? ==> l.balance.value < |s.balances|)
  }

  /** A pick goes through exactly on a list with a bench and a purpose, for the line the scan addresses, if that
      line accepts it. */
  lemma PickGoesThroughIff(s: State, input: PickInput)
    ensures ConfirmPick(s, input).Ok? <==>
            (&& input.list < |s.lists| && s.lists[input.list].fulfilment != Legacy
             && s.lists[input.list].packing.Some?
             && exists i: nat :: Addresses(s, input, i) && Accepts(s, input, s.lines[i]))
    ensures ConfirmPick(s, input).Ok? ==> Addresses(s, input, CheckPick(s, input).value)
  {
    ScanChooses(s.lines, input.list, input.item, input.scannedBin);
    if ConfirmPick(s, input).Ok? {
      var i := CheckPick(s, input).value;
      assert Addresses(s, input, i) && Accepts(s, input, s.lines[i]);
    }
  }

  /** A pick opens a list that was only drafted and completes one on which nothing is left to pick, unless all of
      it had been shipped before; it touches no other list. */
  lemma PickSettles(s: State, input: PickInput)
    requires ConfirmPick(s, input).Ok?
    ensures var t, was := ConfirmPick(s, input).value, s.lists[input.list];
            var left := exists i :: 0 <= i < |t.lines| && t.lines[i].list == input.list && 0.0 < t.lines[i].alloc
                                    && t.lines[i].picked < t.lines[i].alloc;
            && t == s.(balances := t.balances, lines := t.lines, lists := t.lists) && |t.lists| == |s.lists|
            && (forall k :: 0 <= k < |s.lists| && k != input.list ==> t.lists[k] == s.lists[k])
            && t.lists[input.list] == was.(status := t.lists[input.list].status)
            && t.lists[input.list].status == (if !left && !was.consumed then ListCompleted
                                              else if was.status == Draft then Open else was.status)
  {
  }

  // Packing

  /** An assignment goes through exactly when something is to be packed, the box is linked to the list, and what the
      boxes hold stays within what was picked, up to a ten-thousandth; it adds one row to the box. */
  lemma AssignGoesThroughIff(s: State, box: nat, list: nat, item: Item, q: real)
    ensures var r := AssignToBox(s, box, list, item, q);
            var picked, boxed := Total(s.lines, PickedOf(list, item)), Total(s.boxItems, BoxedOf(s.boxes, list, item));
            && (r.Ok? <==> 0.0 < q && box < |s.boxes| && s.boxes[box].list == Some(list) && 0.0 < picked
                           && boxed + q <= picked * 1.0001)
            && (r.Ok? ==> r.value == s.(boxItems := s.boxItems + [BoxItem(box, item, q)], lines := r.value.lines))
  {
  }

  /** A reversal goes through exactly when the newest row of the item in a linked box holds the quantity and the box
      as a whole does, up to a ten-thousandth of a unit. It takes it off that row and logs it, late if the box had
      shipped. */
  lemma ReverseGoesThroughIff(s: State, box: nat, item: Item, q: real)
    ensures var r, k := ReverseItem(s, box, item, q), LastInBox(s.boxItems, box, item);
            && (r.Ok? <==> && item != "" && 0.0 < q && box < |s.boxes| && s.boxes[box].list.Some?
                           && q <= Total(s.boxItems, InBox(box, item)) + 0.0001
                           && k.Some? && q <= s.boxItems[k.value].quantity)
            && (r.Ok? ==> r.value == s.(boxItems := r.value.boxItems, lines := r.value.lines,
                                        reversals := s.reversals + [Reversal(box, item, q, s.boxes[box].shipped)]))
            && (r.Ok? ==> r.value.boxItems == s.boxItems[k.value := BoxItem(box, item,
                                                                           s.boxItems[k.value].quantity - q)])
  {
  }

  lemma LinkedBoxed(s: State, box: nat, list: nat, order: nat, item: Item)
    requires BoxItemsFit(s.boxes, s.boxItems)
    ensures var m := LinkBox(s, box, list, order);
            Total(m.boxItems, BoxedOf(m.boxes, list, item)) == Total(s.boxItems, BoxedOf(s.boxes, list, item))
  {
    var m := LinkBox(s, box, list, order);
    TotalSame(m.boxItems, BoxedOf(m.boxes, list, item), s.boxItems, BoxedOf(s.boxes, list, item));
  }

  /** A consolidation goes through exactly when the order line stays within its requirement, up to a ten-thousandth,
      the box is free or the list's own, and the assignment has room; the order line rises by the quantity, and the
      box is linked to the list and the order if it was to none. */
  lemma ConsolidateGoesThroughIff(s: State, list: nat, order: nat, box: nat, item: Item, q: real)
    requires Structure(s)
    ensures var r, w := Consolidate(s, list, order, box, item, q), FindOrderLine(s.orderLines, list, order, item);
            var picked, boxed := Total(s.lines, PickedOf(list, item)), Total(s.boxItems, BoxedOf(s.boxes, list, item));
            && (r.Ok? <==> && 0.0 < q && w.Some?
                           && s.orderLines[w.value].consolidated + q <= s.orderLines[w.value].required * 1.0001
                           && box < |s.boxes| && (s.boxes[box].list.None? || s.boxes[box].list == Some(list))
                           && 0.0 < picked && boxed + q <= picked * 1.0001)
            && (r.Ok? ==> r.value.orderLines == s.orderLines[w.value := s.orderLines[w.value].(
                          consolidated := s.orderLines[w.value].consolidated + q)])
            && (r.Ok? ==> r.value.boxes == s.boxes[box := s.boxes[box].(list := Some(list),
                          order := if s.boxes[box].order.Some? then s.boxes[box].order else Some(order))])
  {
    if box < |s.boxes| {
      var m := LinkBox(s, box, list, order);
      LinkedBoxed(s, box, list, order, item);
      AssignGoesThroughIff(m, box, list, item, q);
    }
  }

  // Shipping

  /** The bench has what the box holds of an item, up to a ten-thousandth of a unit. */
  ghost predicate BenchHas(balances: seq<Balance>, rows: seq<BoxItem>, box: nat, packing: nat, item: Item) {
    var q := Total(rows, InBox(box, item));
    q <= 0.0 || (FindRow(balances, item, packing).Some? && q <= Held(balances, item, packing) + 0.0001)
  }

  /** An item has `q` less at a place, but no less than zero, and everything else is where it was. */
  ghost predicate Lowered(
    a: seq<Balance>, b: seq<Balance>, item: Item, packing: nat, q: real, other: Item, place: nat)
  {
    && Held(b, other, place) == (if other == item && place == packing then Max(Held(a, item, packing) - q, 0.0)
                                 else Held(a, other, place))
    && (FindRow(b, other, place).Some? <==> FindRow(a, other, place).Some?)
  }

  /** Shipping one item lowers what it has at the bench by what the box holds. */
  lemma ItemLeaves(
    k: Stock, rows: seq<BoxItem>, box: nat, list: nat, packing: nat, item: Item, t: Stock, other: Item, place: nat)
    requires ShipItem(k, rows, box, list, packing, item) == Ok(t) && 0.0 <= Total(rows, InBox(box, item))
    requires NonNegative(k.balances)
    ensures Lowered(k.balances, t.balances, item, packing, Total(rows, InBox(box, item)), other, place)
    ensures NonNegative(t.balances)
  {
    var q := Total(rows, InBox(box, item));
    HeldSign(k.balances, item, packing);
    if q > 0.0 {
      var b := FindRow(k.balances, item, packing).value;
      var actual := Max(k.balances[b].actual - q, 0.0);
      HeldAfterUpdate(k.balances, b, actual, other, place);
      FoundAlike(k.balances, k.balances[b := k.balances[b].(actual := actual)], other, place);
    }
  }

  lemma ItemGoesIff(k: Stock, rows: seq<BoxItem>, box: nat, list: nat, packing: nat, item: Item)
    ensures ShipItem(k, rows, box, list, packing, item).Ok? <==> BenchHas(k.balances, rows, box, packing, item)
  {
  }

  /** What has been taken off the bench once some items of the box have gone. */
  ghost predicate AllLowered(
    a: seq<Balance>, b: seq<Balance>, rows: seq<BoxItem>, box: nat, items: seq<Item>, packing: nat, other: Item,
    place: nat)
  {
    if other in items then Lowered(a, b, other, packing, Total(rows, InBox(box, other)), other, place)
    else Held(b, other, place) == Held(a, other, place)
         && (FindRow(b, other, place).Some? <==> FindRow(a, other, place).Some?)
  }

  lemma OneMoreLowered(
    a: seq<Balance>, m: seq<Balance>, b: seq<Balance>, rows: seq<BoxItem>, box: nat, head: seq<Item>, last: Item,
    packing: nat, other: Item, place: nat)
    requires last !in head && AllLowered(a, m, rows, box, head, packing, other, place)
    requires Lowered(m, b, last, packing, Total(rows, InBox(box, last)), other, place)
    ensures AllLowered(a, b, rows, box, head + [last], packing, other, place)
  {
  }

  lemma {:induction false} ItemsLeave(
    k: Stock, rows: seq<BoxItem>, box: nat, list: nat, packing: nat, items: seq<Item>, t: Stock, other: Item,
    place: nat)
    requires ShipItems(k, rows, box, list, packing, items) == Ok(t) && NonNegative(k.balances)
    requires forall i, j :: 0 <= i < j < |items| ==> items[i] != items[j]
    requires forall item: Item :: 0.0 <= Total(rows, InBox(box, item))
    ensures AllLowered(k.balances, t.balances, rows, box, items, packing, other, place) && NonNegative(t.balances)
  {
    if |items| > 0 {
      var n := |items| - 1;
      var head, last := items[..n], items[n];
      var m := ShipItems(k, rows, box, list, packing, head).value;
      assert items == head + [last];
      ItemsLeave(k, rows, box, list, packing, head, m, other, place);
      ItemLeaves(m, rows, box, list, packing, last, t, other, place);
      OneMoreLowered(k.balances, m.balances, t.balances, rows, box, head, last, packing, other, place);
    }
  }

  lemma {:induction false} ItemsGoIff(
    k: Stock, rows: seq<BoxItem>, box: nat, list: nat, packing: nat, items: seq<Item>)
    requires NonNegative(k.balances)
    requires forall i, j :: 0 <= i < j < |items| ==> items[i] != items[j]
    requires forall item: Item :: 0.0 <= Total(rows, InBox(box, item))
    ensures ShipItems(k, rows, box, list, packing, items).Ok?
            <==> forall item :: item in items ==> BenchHas(k.balances, rows, box, packing, item)
  {
    if |items| > 0 {
      var n := |items| - 1;
      var head, last := items[..n], items[n];
      assert items == head + [last] && last !in head;
      ItemsGoIff(k, rows, box, list, packing, head);
      if ShipItems(k, rows, box, list, packing, head).Ok? {
        var m := ShipItems(k, rows, box, list, packing, head).value;
        ItemsLeave(k, rows, box, list, packing, head, m, last, packing);
        ItemGoesIff(m, rows, box, list, packing, last);
        assert BenchHas(m.balances, rows, box, packing, last) <==> BenchHas(k.balances, rows, box, packing, last);
        assert ShipItems(k, rows, box, list, packing, items) == ShipItem(m, rows, box, list, packing, last);
      } else {
        assert ShipItems(k, rows, box, list, packing, items).Err?;
      }
      assert forall item :: item in items <==> item in head || item == last;
    }
  }

  /** Where a box's goods are taken from: its own bench, or else its list's. */
  ghost function BenchOf(s: State, box: nat, list: nat): Option<nat>
    requires box < |s.boxes| && list < |s.lists|
  {
    if s.boxes[box].packing.Some? then s.boxes[box].packing else s.lists[list].packing
  }

  lemma ContentsSign(s: State, box: nat)
    requires BoxItemsFit(s.boxes, s.boxItems)
    ensures forall item: Item :: 0.0 <= Total(s.boxItems, InBox(box, item))
    ensures forall item: Item :: item !in ItemsInBox(s.boxItems, box) ==> Total(s.boxItems, InBox(box, item)) == 0.0
  {
    forall item: Item
      ensures 0.0 <= Total(s.boxItems, InBox(box, item))
              && (item !in ItemsInBox(s.boxItems, box) ==> Total(s.boxItems, InBox(box, item)) == 0.0)
    {
      InBoxTotals(s, box, item);
    }
  }

  /** A box that has left may be shipped again, to no effect. One that has not ships exactly when it is linked to a
      list with a purpose and a bench, and that bench has, of every item, what the box holds. */
  lemma ShipGoesThroughIff(s: State, box: nat)
    requires BoxItemsFit(s.boxes, s.boxItems) && NonNegative(s.balances)
    ensures ShipBox(s, box).Ok? <==>
            (&& box < |s.boxes|
             && (s.boxes[box].shipped
                 || (&& s.boxes[box].list.Some? && s.boxes[box].list.value < |s.lists|
                     && s.lists[s.boxes[box].list.value].fulfilment != Legacy
                     && BenchOf(s, box, s.boxes[box].list.value).Some?
                     && forall item: Item :: BenchHas(s.balances, s.boxItems, box,
                                                      BenchOf(s, box, s.boxes[box].list.value).value, item))))
  {
    if box < |s.boxes| && !s.boxes[box].shipped && s.boxes[box].list.Some? && s.boxes[box].list.value < |s.lists| {
      var list := s.boxes[box].list.value;
      var packing := BenchOf(s, box, list);
      if packing.Some? {
        ContentsSign(s, box);
        ItemsGoIff(Stock(s.balances, s.lines, s.ledger), s.boxItems, box, list, packing.value,
                   ItemsInBox(s.boxItems, box));
      }
    }
  }

  /** What a shipment takes off the bench, of every item and at every place. */
  lemma ShipmentLeaves(s: State, box: nat, item: Item, place: nat)
    requires BoxItemsFit(s.boxes, s.boxItems) && NonNegative(s.balances)
    requires ShipBox(s, box).Ok? && !s.boxes[box].shipped
    ensures Held(ShipBox(s, box).value.balances, item, place)
            == if Some(place) == BenchOf(s, box, s.boxes[box].list.value)
               then Max(Held(s.balances, item, place) - Total(s.boxItems, InBox(box, item)), 0.0)
               else Held(s.balances, item, place)
  {
    var list, t := s.boxes[box].list.value, ShipBox(s, box).value;
    var packing := BenchOf(s, box, list).value;
    ContentsSign(s, box);
    HeldSign(s.balances, item, place);
    ItemsLeave(Stock(s.balances, s.lines, s.ledger), s.boxItems, box, list, packing, ItemsInBox(s.boxItems, box),
               Stock(t.balances, t.lines, t.ledger), item, place);
  }

  /** A shipment flags its box as shipped and loaded and no other, and closes its list exactly when nothing picked on
      it is still to be shipped. */
  lemma ShipmentCloses(s: State, box: nat)
    requires ShipBox(s, box).Ok? && !s.boxes[box].shipped
    ensures var t, list := ShipBox(s, box).value, s.boxes[box].list.value;
            var left := exists i :: 0 <= i < |t.lines| && t.lines[i].list == list
                                    && t.lines[i].consumed < t.lines[i].picked;
            && t == s.(balances := t.balances, lines := t.lines, ledger := t.ledger, boxes := t.boxes,
                       lists := t.lists)
            && t.boxes == s.boxes[box := s.boxes[box].(shipped := true, loaded := true)]
            && t.lists == (if left then s.lists
                           else s.lists[list := s.lists[list].(consumed := true, status := ListCompleted)])
  {
  }

  /** However a box is loaded it ends up loaded. A linked one that has not left is shipped, and loading is refused
      if shipping is; an unlinked one counts as gone when it is marked at the bench and not when it is loaded
      onto a trip. Nothing else changes. */
  lemma LoadingIs(s: State, box: nat)
    ensures MarkLoaded(s, box).Ok? <==> LoadBox(s, box).Ok?
    ensures LoadBox(s, box).Ok? <==>
            box < |s.boxes| && (s.boxes[box].shipped || s.boxes[box].list.None? || ShipBox(s, box).Ok?)
    ensures LoadBox(s, box).Ok? ==>
              var mark, load := MarkLoaded(s, box).value, LoadBox(s, box).value;
              if s.boxes[box].list.Some? && !s.boxes[box].shipped then
                mark == load == ShipBox(s, box).value
              else
                && mark == s.(boxes := s.boxes[box := s.boxes[box].(loaded := true, shipped := true)])
                && load == s.(boxes := s.boxes[box := s.boxes[box].(loaded := true)])
  {
    if box < |s.boxes| && s.boxes[box].list.Some? && !s.boxes[box].shipped && ShipBox(s, box).Ok? {
      ShipmentCloses(s, box);
      assert ShipBox(s, box).value.boxes[box].shipped && ShipBox(s, box).value.boxes[box].loaded;
      var t := ShipBox(s, box).value;
      assert t.boxes[box := t.boxes[box].(loaded := true, shipped := true)] == t.boxes;
    }
  }

  // Closing a wave

  /** An order of the wave is still short when what it asked for and was not given is more than the tolerance. */
  ghost predicate Incomplete(s: State, list: nat, order: nat) {
    && 0.0001 < Total(s.orderLines, RequiredIn(list, order))
    && 0.0001 < Total(s.orderLines, RequiredIn(list, order)) - Total(s.orderLines, ConsolidatedIn(list, order))
  }

  ghost predicate IsClean(s: State, list: nat) {
    && Total(LeftoverBreakdown(s, list), LEFT_OVER) <= 0.0001
    && forall k :: 0 <= k < |s.orderLines| && s.orderLines[k].list == list ==>
         !Incomplete(s, list, s.orderLines[k].order)
  }

  lemma CleanIff(s: State, list: nat)
    ensures IsClean(s, list) <==> Total(LeftoverBreakdown(s, list), LEFT_OVER) <= 0.0001 && AllComplete(s.orderLines,
                                                                                                     list)
  {
    var rows := s.orderLines;
    if IsClean(s, list) {
      forall order | order in OrdersOf(rows, list, |rows|) ensures OrderComplete(rows, list, order) {
        var k :| 0 <= k < |rows| && rows[k].list == list && rows[k].order == order;
        assert !Incomplete(s, list, rows[k].order);
      }
    } else if AllComplete(rows, list) {
      forall k | 0 <= k < |rows| && rows[k].list == list ensures !Incomplete(s, list, rows[k].order) {
        assert rows[k].order in OrdersOf(rows, list, |rows|);
      }
    }
  }

  /** Some storage of the list's warehouse can take the item back. */
  ghost predicate CanGoBack(s: State, list: nat, item: Item)
    requires list < |s.lists|
  {
    || (exists b :: 0 <= b < |s.balances| && StoredAt(s, s.balances[b], item, s.lists[list].warehouse))
    || (exists k: nat :: IsStorage(s, k, s.lists[list].warehouse) && s.locations[k].kind == Storage)
  }

  lemma {:induction false} StorageFound(s: State, warehouse: nat, from: nat)
    requires from <= |s.locations|
    ensures var r := FirstStorage(s, warehouse, from);
            && (r.Some? ==> from <= r.value < |s.locations| && s.locations[r.value].kind == Storage
                            && IsStorage(s, r.value, warehouse)
                            && forall k :: from <= k < r.value ==>
                                 !(IsStorage(s, k, warehouse) && s.locations[k].kind == Storage))
            && (r.None? ==> forall k :: from <= k < |s.locations| ==>
                  !(IsStorage(s, k, warehouse) && s.locations[k].kind == Storage))
    decreases |s.locations| - from
  {
    if from < |s.locations| {
      StorageFound(s, warehouse, from + 1);
    }
  }

  /** Leftover goes where most of the item is stored in the warehouse, or else to its first storage location, and has
      nowhere to go only when there is neither. */
  lemma GoesBackTo(s: State, list: nat, item: Item)
    requires list < |s.lists|
    ensures var r, warehouse := PutBack(s, item, s.lists[list].warehouse), s.lists[list].warehouse;
            && (r.Some? <==> CanGoBack(s, list, item))
            && (r.Some? && (exists b :: 0 <= b < |s.balances| && StoredAt(s, s.balances[b], item, warehouse)) ==>
                  exists b :: 0 <= b < |s.balances| && StoredAt(s, s.balances[b], item, warehouse)
                              && r == Some(s.balances[b].location)
                              && forall c :: 0 <= c < |s.balances| && StoredAt(s, s.balances[c], item, warehouse) ==>
                                   s.balances[c].actual <= s.balances[b].actual)
            && (r.Some? && !(exists b :: 0 <= b < |s.balances| && StoredAt(s, s.balances[b], item, warehouse)) ==>
                  s.locations[r.value].kind == Storage
                  && forall k :: 0 <= k < r.value ==>
                       !(IsStorage(s, k, warehouse) && s.locations[k].kind == Storage))
  {
    StorageFound(s, s.lists[list].warehouse, 0);
  }

  lemma StoredStays(s: State, t: State, moved: Item, location: nat, delta: real, list: nat, item: Item)
    requires list < |s.lists| && t == s.(balances := Adjust(s.balances, moved, location, delta))
    requires CanGoBack(s, list, item)
    ensures CanGoBack(t, list, item)
  {
    var warehouse := s.lists[list].warehouse;
    if b :| 0 <= b < |s.balances| && StoredAt(s, s.balances[b], item, warehouse) {
      assert StoredAt(t, t.balances[b], item, warehouse);
    } else {
      var k: nat :| IsStorage(s, k, warehouse) && s.locations[k].kind == Storage;
      assert IsStorage(t, k, warehouse);
    }
  }

  lemma NowhereStays(s: State, t: State, moved: Item, location: nat, delta: real, list: nat, item: Item)
    requires list < |s.lists| && t == s.(balances := Adjust(s.balances, moved, location, delta))
    requires !CanGoBack(s, list, item) && item != moved
    ensures !CanGoBack(t, list, item)
  {
    var warehouse := s.lists[list].warehouse;
    forall b | 0 <= b < |t.balances| ensures !StoredAt(t, t.balances[b], item, warehouse) {
      assert t.balances[b].item == item ==> b < |s.balances| && !StoredAt(s, s.balances[b], item, warehouse);
    }
    forall k: nat ensures !(IsStorage(t, k, warehouse) && t.locations[k].kind == Storage) {
      assert IsStorage(t, k, warehouse) <==> IsStorage(s, k, warehouse);
    }
  }

  /** Taking leftover off the bench and putting it back somewhere. */
  ghost predicate PutBackAt(s: State, t: State, item: Item, packing: nat, place: nat, q: real) {
    var m := s.(balances := Adjust(s.balances, item, packing, -q));
    t == m.(balances := Adjust(m.balances, item, place, q))
  }

  lemma PutBackKeeps(s: State, t: State, moved: Item, packing: nat, place: nat, q: real, list: nat, item: Item)
    requires list < |s.lists| && PutBackAt(s, t, moved, packing, place, q)
    ensures t.lists == s.lists
    ensures CanGoBack(s, list, item) ==> CanGoBack(t, list, item)
    ensures !CanGoBack(s, list, item) && item != moved ==> !CanGoBack(t, list, item)
  {
    var m := s.(balances := Adjust(s.balances, moved, packing, -q));
    if CanGoBack(s, list, item) {
      StoredStays(s, m, moved, packing, -q, list, item);
      StoredStays(m, t, moved, place, q, list, item);
    } else if item != moved {
      NowhereStays(s, m, moved, packing, -q, list, item);
      NowhereStays(m, t, moved, place, q, list, item);
    }
  }

  lemma ReturnPutsBack(s: State, list: nat, packing: nat, l: Leftover, t: State) returns (place: nat)
    requires list < |s.lists| && DisposeOne(s, list, packing, ReturnToStock, l) == Ok(t)
    ensures CanGoBack(s, list, l.item) && PutBackAt(s, t, l.item, packing, place, l.quantity)
  {
    ReturnedIs(s, list, packing, l, t);
    GoesBackTo(s, list, l.item);
    place := PutBack(s, l.item, s.lists[list].warehouse).value;
  }

  lemma ReturnKeepsPlaces(s: State, list: nat, packing: nat, l: Leftover, t: State, item: Item)
    requires list < |s.lists| && DisposeOne(s, list, packing, ReturnToStock, l) == Ok(t)
    ensures t.lists == s.lists && (CanGoBack(t, list, item) <==> CanGoBack(s, list, item))
  {
    var place := ReturnPutsBack(s, list, packing, l, t);
    PutBackKeeps(s, t, l.item, packing, place, l.quantity, list, item);
  }

  lemma LastReturned(s: State, list: nat, packing: nat, leftovers: seq<Leftover>, t: State) returns (m: State)
    requires list < |s.lists| && |leftovers| > 0
    requires DisposeAll(s, list, packing, ReturnToStock, leftovers) == Ok(t)
    ensures DisposeAll(s, list, packing, ReturnToStock, leftovers[..|leftovers| - 1]) == Ok(m)
    ensures m.lists == s.lists ==> DisposeOne(m, list, packing, ReturnToStock, leftovers[|leftovers| - 1]) == Ok(t)
  {
    m := DisposeAll(s, list, packing, ReturnToStock, leftovers[..|leftovers| - 1]).value;
  }

  /** Whether an item can go back does not depend on what went back before. */
  lemma {:induction false} ReturnsKeepPlaces(
    s: State, list: nat, packing: nat, leftovers: seq<Leftover>, t: State, item: Item)
    requires list < |s.lists| && DisposeAll(s, list, packing, ReturnToStock, leftovers) == Ok(t)
    ensures t.lists == s.lists && (CanGoBack(t, list, item) <==> CanGoBack(s, list, item))
  {
    if |leftovers| > 0 {
      var n := |leftovers| - 1;
      var m := LastReturned(s, list, packing, leftovers, t);
      ReturnsKeepPlaces(s, list, packing, leftovers[..n], m, item);
      ReturnKeepsPlaces(m, list, packing, leftovers[n], t, item);
    }
  }

  lemma {:induction false} ReturnsIff(s: State, list: nat, packing: nat, leftovers: seq<Leftover>)
    requires list < |s.lists|
    ensures DisposeAll(s, list, packing, ReturnToStock, leftovers).Ok?
            <==> forall k :: 0 <= k < |leftovers| ==> CanGoBack(s, list, leftovers[k].item)
  {
    if |leftovers| > 0 {
      var n := |leftovers| - 1;
      var head, last := leftovers[..n], leftovers[n];
      assert leftovers == head + [last];
      ReturnsIff(s, list, packing, head);
      if DisposeAll(s, list, packing, ReturnToStock, head).Ok? {
        var m := DisposeAll(s, list, packing, ReturnToStock, head).value;
        ReturnsKeepPlaces(s, list, packing, head, m, last.item);
        GoesBackTo(m, list, last.item);
        assert DisposeAll(s, list, packing, ReturnToStock, leftovers)
               == DisposeOne(m, list, packing, ReturnToStock, last);
      } else {
        assert DisposeAll(s, list, packing, ReturnToStock, leftovers).Err?;
      }
    }
  }

  lemma {:induction false} OthersDisposeOk(
    s: State, list: nat, packing: nat, resolution: Resolution, leftovers: seq<Leftover>)
    requires list < |s.lists| && resolution != ReturnToStock
    ensures DisposeAll(s, list, packing, resolution, leftovers).Ok?
  {
    if |leftovers| > 0 {
      OthersDisposeOk(s, list, packing, resolution, leftovers[..|leftovers| - 1]);
    }
  }

  /** What the supervisor who forces a wave has to give: a reason, the right to, and, with stock left over, a
      resolution that can be carried out. */
  ghost predicate CanForce(s: State, list: nat, request: Request)
    requires list < |s.lists|
  {
    && request.force && request.reasonGiven && request.permitted
    && (0.0001 < Total(LeftoverBreakdown(s, list), LEFT_OVER) ==>
          && request.resolution != NoResolution
          && (request.resolution in {ReturnToStock, WriteOff} ==> s.lists[list].packing.Some?)
          && (request.resolution == ReturnToStock ==>
                forall k :: 0 <= k < |LeftoverBreakdown(s, list)| ==>
                  CanGoBack(s, list, LeftoverBreakdown(s, list)[k].item)))
  }

  /** Closing goes through exactly for a list that is closed already, a wave that is done, or one that may be
      forced. */
  lemma CloseGoesThroughIff(s: State, list: nat, request: Request)
    ensures CloseWave(s, list, request).Ok? <==>
            (list < |s.lists|
             && (s.lists[list].status == ListCompleted || IsClean(s, list) || CanForce(s, list, request)))
  {
    if list < |s.lists| && s.lists[list].packing.Some? {
      CleanIff(s, list);
      if request.resolution == ReturnToStock {
        ReturnsIff(s, list, s.lists[list].packing.value, LeftoverBreakdown(s, list));
      } else {
        OthersDisposeOk(s, list, s.lists[list].packing.value, request.resolution, LeftoverBreakdown(s, list));
      }
    } else if list < |s.lists| {
      CleanIff(s, list);
    }
  }

  /** Closing a wave completes its list, logs what was left over and how it was resolved, if it had to be, and changes
      no other list; closing a completed one changes nothing at all. */
  lemma CloseLogs(s: State, list: nat, request: Request)
    requires CloseWave(s, list, request).Ok?
    ensures var t := CloseWave(s, list, request).value;
            if s.lists[list].status == ListCompleted then t == s
            else
              && t == s.(balances := t.balances, ledger := t.ledger, backorders := t.backorders,
                         reconciliations := t.reconciliations, lists := t.lists)
              && t.lists == s.lists[list := s.lists[list].(status := ListCompleted)]
              && t.reconciliations == s.reconciliations + [Reconciliation(
                   list, Total(LeftoverBreakdown(s, list), LEFT_OVER),
                   if IsClean(s, list) then NoResolution else request.resolution, !IsClean(s, list))]
  {
    CleanIff(s, list);
  }

  // Completing a counter sale

  lemma {:induction false} BoxingLeavesOthers(s: State, box: nat, list: nat, items: seq<Item>, t: State, item: Item)
    requires AssignPicked(s, box, list, items) == Ok(t) && item !in items
    ensures Total(t.boxItems, BoxedOf(s.boxes, list, item)) == Total(s.boxItems, BoxedOf(s.boxes, list, item))
  {
    if |items| > 0 {
      var n := |items| - 1;
      var m := AssignPicked(s, box, list, items[..n]).value;
      BoxingLeavesOthers(s, box, list, items[..n], m, item);
      assert items[n] in items;
      TotalPush(m.boxItems, BoxItem(box, items[n], Total(m.lines, PickedOf(list, items[n]))),
                BoxedOf(s.boxes, list, item));
    }
  }

  /** What a list's boxes hold of an item leaves room for all that was picked of it. */
  ghost predicate RoomForPicked(s: State, list: nat, item: Item) {
    var picked, boxed := Total(s.lines, PickedOf(list, item)), Total(s.boxItems, BoxedOf(s.boxes, list, item));
    picked <= 0.0 || boxed + picked <= picked * 1.0001
  }

  lemma BoxesAllIff(s: State, box: nat, list: nat, item: Item)
    requires box < |s.boxes| && s.boxes[box].list == Some(list)
    ensures AssignAllOf(s, box, list, item).Ok? <==> RoomForPicked(s, list, item)
  {
    var q := Total(s.lines, PickedOf(list, item));
    if q > 0.0 {
      AssignGoesThroughIff(s, box, list, item, q);
    }
  }

  lemma {:induction false} BoxingGoesIff(s0: State, s: State, box: nat, list: nat, items: seq<Item>)
    requires Inv(s0, s) && box < |s.boxes| && s.boxes[box].list == Some(list)
    requires forall i, j :: 0 <= i < j < |items| ==> items[i] != items[j]
    ensures AssignPicked(s, box, list, items).Ok? <==> forall item :: item in items ==> RoomForPicked(s, list, item)
  {
    if |items| > 0 {
      var n := |items| - 1;
      var head, last := items[..n], items[n];
      assert items == head + [last] && last !in head;
      BoxingGoesIff(s0, s, box, list, head);
      if AssignPicked(s, box, list, head).Ok? {
        var m := AssignPicked(s, box, list, head).value;
        BoxHoldsPicked(s0, s, box, list, head, last);
        BoxingLeavesOthers(s, box, list, head, m, last);
        BoxesAllIff(m, box, list, last);
        assert AssignPicked(s, box, list, items) == AssignAllOf(m, box, list, last);
        assert RoomForPicked(m, list, last) <==> RoomForPicked(s, list, last);
      } else {
        assert AssignPicked(s, box, list, items).Err?;
      }
      assert forall item :: item in items <==> item in head || item == last;
    }
  }

  /** The list's bench has all that was picked of an item, up to a ten-thousandth of a unit. */
  ghost predicate BenchHasPicked(s: State, list: nat, item: Item)
    requires list < |s.lists|
  {
    var picked := Total(s.lines, PickedOf(list, item));
    picked <= 0.0
    || (s.lists[list].packing.Some? && FindRow(s.balances, item, s.lists[list].packing.value).Some?
        && picked <= AtBench(s, list, item) + 0.0001)
  }

  lemma SaleOpens(s0: State, s: State, list: nat)
    requires Inv(s0, s) && list < |s.lists|
    ensures var m := OpenBox(s, Some(list), None).value;
            && Inv(s0, m) && |m.boxes| == |s.boxes| + 1 && m.boxes[|s.boxes|].list == Some(list)
            && m.boxes[|s.boxes|].packing == s.lists[list].packing && !m.boxes[|s.boxes|].shipped
            && (forall item: Item :: RoomForPicked(m, list, item) <==> RoomForPicked(s, list, item))
  {
    var m := OpenBox(s, Some(list), None).value;
    OpenBoxKeeps(s0, s, Some(list), None);
    forall item: Item ensures RoomForPicked(m, list, item) <==> RoomForPicked(s, list, item) {
      TotalSame(m.boxItems, BoxedOf(m.boxes, list, item), s.boxItems, BoxedOf(s.boxes, list, item));
    }
  }

  lemma RoomOffList(s: State, list: nat, item: Item)
    requires item !in ItemsOnList(s.lines, list, |s.lines|)
    ensures Total(s.lines, PickedOf(list, item)) == 0.0 && RoomForPicked(s, list, item)
  {
    TotalZero(s.lines, PickedOf(list, item), |s.lines|);
  }

  /** Once the picked totals are boxed, the sale's box ships exactly when the bench has them. */
  lemma SaleShipsIff(s0: State, s: State, list: nat, t: State)
    requires Inv(s0, s) && NonNegative(s.balances) && list < |s.lists| && s.lists[list].fulfilment != Legacy
    requires AssignPicked(OpenBox(s, Some(list), None).value, |s.boxes|, list,
                          ItemsOnList(s.lines, list, |s.lines|)) == Ok(t)
    ensures ShipBox(t, |s.boxes|).Ok? <==> forall item: Item :: BenchHasPicked(s, list, item)
  {
    var m, box, items := OpenBox(s, Some(list), None).value, |s.boxes|, ItemsOnList(s.lines, list, |s.lines|);
    SaleOpens(s0, s, list);
    BoxHoldsPicked(s0, m, box, list, items, "");
    ShipGoesThroughIff(t, box);
    forall item: Item
      ensures BenchHas(t.balances, t.boxItems, box, s.lists[list].packing.value, item)
              <==> BenchHasPicked(s, list, item)
    {
      BoxHoldsPicked(s0, m, box, list, items, item);
      FreshBox(s0, s, item);
      if item !in items {
        RoomOffList(s, list, item);
      }
    }
  }

  /** A counter sale can be completed exactly when nothing on it is left to pick, its boxes leave room for what was
      picked of every item, and its bench has it. */
  lemma SaleGoesThroughIff(s0: State, s: State, list: nat)
    requires Inv(s0, s) && NonNegative(s.balances)
    ensures CompleteSale(s, list).Ok? <==>
            (&& list < |s.lists| && s.lists[list].fulfilment == ForCounter
             && Total(s.lines, PositiveOpenIn(list)) <= 0.0001
             && (forall item: Item :: RoomForPicked(s, list, item))
             && (forall item: Item :: BenchHasPicked(s, list, item)))
  {
    if list < |s.lists| && s.lists[list].fulfilment == ForCounter && Total(s.lines, PositiveOpenIn(list)) <= 0.0001 {
      var m, items := OpenBox(s, Some(list), None).value, ItemsOnList(s.lines, list, |s.lines|);
      SaleOpens(s0, s, list);
      BoxingGoesIff(s0, m, |s.boxes|, list, items);
      forall item: Item | item !in items ensures RoomForPicked(s, list, item) {
        RoomOffList(s, list, item);
      }
      if AssignPicked(m, |s.boxes|, list, items).Ok? {
        SaleShipsIff(s0, s, list, AssignPicked(m, |s.boxes|, list, items).value);
      }
    }
  }
}
