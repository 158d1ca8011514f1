/** Packing, linking and reversing keep the outbound invariants. */
module PackKeeps {
  import opened Wrappers
  import opened Sums
  import opened OutboundTables
  import opened OutboundSteps
  import opened OutboundEffects
  import opened OutboundInvariant

  /** Lines that differ in their packed quantities only. */
  ghost predicate OnlyPacked(a: seq<Line>, b: seq<Line>) {
    |a| == |b| && forall i :: 0 <= i < |a| ==> b[i] == a[i].(packed := b[i].packed)
  }

  lemma OnlyPackedTotals(s: State, lines: seq<Line>, list: nat, item: Item)
    requires OnlyPacked(s.lines, lines)
    ensures Total(lines, PickedOf(list, item)) == Total(s.lines, PickedOf(list, item))
    ensures Total(lines, ConsumedOf(list, item)) == Total(s.lines, ConsumedOf(list, item))
    ensures Total(lines, OpenOf(item)) == Total(s.lines, OpenOf(item))
  {
    TotalSame(lines, PickedOf(list, item), s.lines, PickedOf(list, item));
    TotalSame(lines, ConsumedOf(list, item), s.lines, ConsumedOf(list, item));
    TotalSame(lines, OpenOf(item), s.lines, OpenOf(item));
  }

  lemma OnlyPackedKeeps(s0: State, s: State, lines: seq<Line>)
    requires Structure(s) && Reservations(s) && Drift(s0, s) && OnlyPacked(s.lines, lines)
    requires forall i :: 0 <= i < |lines| ==> 0.0 <= lines[i].packed <= lines[i].picked
    ensures var t := s.(lines := lines); Structure(t) && Reservations(t) && Drift(s0, t)
  {
    var t := s.(lines := lines);
    forall b: nat | b < |t.balances| ensures ReservedOn(t.balances, t.lines, b) {
      assert ReservedAt(s, b);
      TotalSame(lines, OpenOn(b), s.lines, OpenOn(b));
      TotalSame(lines, PositiveOpenOn(b), s.lines, PositiveOpenOn(b));
    }
    forall item: Item ensures DriftOn(s0.balances, t.balances, t.lines, t.ledger, item) {
      assert DriftAt(s0, s, item);
      OnlyPackedTotals(s, lines, 0, item);
    }
  }

  /** Box items and reversals matter to the packing and shipping sums only. */
  lemma BoxRowsKeep(s0: State, s: State, boxItems: seq<BoxItem>, reversals: seq<Reversal>)
    requires Structure(s) && ShippedOnce(s) && Reservations(s) && Drift(s0, s)
    requires forall i :: 0 <= i < |boxItems| ==> HasList(s.boxes, boxItems[i].box) && 0.0 <= boxItems[i].quantity
    requires forall i :: 0 <= i < |reversals| ==> HasList(s.boxes, reversals[i].box) && 0.0 <= reversals[i].quantity
    ensures var t := s.(boxItems := boxItems, reversals := reversals);
            Structure(t) && ShippedOnce(t) && Reservations(t) && Drift(s0, t)
  {
  }

  /** Packed and boxed stay within tolerance when both grow by `q` up to their limits. */
  lemma CeilingArithmetic(packed: real, boxed: real, picked: real, q: real)
    requires packed <= boxed <= packed + picked * 0.0001
    requires 0.0 <= q && packed <= picked && boxed + q <= picked + picked * 0.0001
    ensures Min(packed + q, picked) <= boxed + q <= Min(packed + q, picked) + picked * 0.0001
  {
  }

  lemma PackedWithinPicked(s: State, list: nat, item: Item)
    requires Structure(s)
    ensures 0.0 <= Total(s.lines, PackedOf(list, item)) <= Total(s.lines, PickedOf(list, item))
    ensures 0.0 <= Total(s.lines, ConsumedOf(list, item)) <= Total(s.lines, PickedOf(list, item))
  {
    TotalNonNegative(s.lines, PackedOf(list, item));
    TotalNonNegative(s.lines, ConsumedOf(list, item));
    TotalLe(s.lines, PackedOf(list, item), s.lines, PickedOf(list, item));
    TotalLe(s.lines, ConsumedOf(list, item), s.lines, PickedOf(list, item));
  }

  lemma AssignedLines(s: State, list: nat, item: Item, q: real)
    requires Structure(s) && 0.0 <= q
    ensures var r := SpreadPacked(s.lines, list, item, q);
            && OnlyPacked(s.lines, r)
            && (forall i :: 0 <= i < |r| ==> 0.0 <= r[i].packed <= r[i].picked)
            && (forall i :: 0 <= i < |r| && !OnKey(s.lines[i], list, item) ==> r[i] == s.lines[i])
  {
    var r := SpreadPacked(s.lines, list, item, q);
    forall i | 0 <= i < |r| ensures
        && r[i] == s.lines[i].(packed := r[i].packed) && 0.0 <= r[i].packed <= r[i].picked
        && (!OnKey(s.lines[i], list, item) ==> r[i] == s.lines[i])
    {
      PackedRow(s.lines, list, item, q, i);
    }
  }

  lemma AssignKeepsPackedAt(s: State, box: nat, list: nat, item: Item, q: real, l: nat, i: Item)
    requires Structure(s) && PackedAt(s, l, i) && AssignToBox(s, box, list, item, q).Ok?
    ensures PackedAt(AssignToBox(s, box, list, item, q).value, l, i)
  {
    var t := AssignToBox(s, box, list, item, q).value;
    AssignedLines(s, list, item, q);
    OnlyPackedTotals(s, t.lines, l, i);
    TotalPush(s.boxItems, BoxItem(box, item, q), BoxedOf(s.boxes, l, i));
    if l == list && i == item {
      PackingSpread(s.lines, list, item, q);
      PackedWithinPicked(s, list, item);
      CeilingArithmetic(Total(s.lines, PackedOf(list, item)), Total(s.boxItems, BoxedOf(s.boxes, list, item)),
                        Total(s.lines, PickedOf(list, item)), q);
    } else {
      TotalSame(t.lines, PackedOf(l, i), s.lines, PackedOf(l, i));
    }
  }

  lemma AssignKeepsShippedAt(s: State, box: nat, list: nat, item: Item, q: real, l: nat, i: Item)
    requires Structure(s) && ShippedAt(s, l, i) && AssignToBox(s, box, list, item, q).Ok?
    ensures ShippedAt(AssignToBox(s, box, list, item, q).value, l, i)
  {
    var t := AssignToBox(s, box, list, item, q).value;
    AssignedLines(s, list, item, q);
    OnlyPackedTotals(s, t.lines, l, i);
    TotalPush(s.boxItems, BoxItem(box, item, q), InShippedBoxes(s.boxes, l, i));
  }

  lemma AssignKeeps(s0: State, s: State, box: nat, list: nat, item: Item, q: real)
    requires Inv(s0, s) && AssignToBox(s, box, list, item, q).Ok?
    ensures Inv(s0, AssignToBox(s, box, list, item, q).value)
  {
    var t := AssignToBox(s, box, list, item, q).value;
    forall l: nat, i: Item
      ensures PackedOn(t.lines, t.boxes, t.boxItems, l, i)
      ensures ShippedOn(t.lines, t.boxes, t.boxItems, t.ledger, t.reversals, l, i)
    {
      AssignKeepsPackedAt(s, box, list, item, q, l, i);
      AssignKeepsShippedAt(s, box, list, item, q, l, i);
    }
    AssignedLines(s, list, item, q);
    OnlyPackedKeeps(s0, s, t.lines);
    BoxRowsKeep(s0, s.(lines := t.lines), t.boxItems, t.reversals);
  }

  // Boxes: opening, linking and flagging never change what a linked box counts for

  ghost predicate BoxesKept(s: State, boxes: seq<Box>) {
    && |s.boxes| <= |boxes|
    && (forall b :: 0 <= b < |s.boxes| && s.boxes[b].list.Some? ==>
          boxes[b].list == s.boxes[b].list && boxes[b].shipped == s.boxes[b].shipped)
    && (forall b :: 0 <= b < |boxes| ==> IsPacking(s.locations, boxes[b].packing))
  }

  lemma BoxesKeptTotals(s: State, boxes: seq<Box>, list: nat, item: Item)
    requires Structure(s) && ShippedOnce(s) && BoxesKept(s, boxes)
    ensures Total(s.boxItems, BoxedOf(boxes, list, item)) == Total(s.boxItems, BoxedOf(s.boxes, list, item))
    ensures Total(s.boxItems, InShippedBoxes(boxes, list, item))
            == Total(s.boxItems, InShippedBoxes(s.boxes, list, item))
    ensures Total(s.ledger, ShippedOf(boxes, list, item)) == Total(s.ledger, ShippedOf(s.boxes, list, item))
    ensures Total(s.reversals, LateReversedOf(boxes, list, item))
            == Total(s.reversals, LateReversedOf(s.boxes, list, item))
    ensures Total(s.reversals, ReversedOf(boxes, list, item)) == Total(s.reversals, ReversedOf(s.boxes, list, item))
  {
    TotalSame(s.boxItems, BoxedOf(boxes, list, item), s.boxItems, BoxedOf(s.boxes, list, item));
    TotalSame(s.boxItems, InShippedBoxes(boxes, list, item), s.boxItems, InShippedBoxes(s.boxes, list, item));
    TotalSame(s.ledger, ShippedOf(boxes, list, item), s.ledger, ShippedOf(s.boxes, list, item));
    TotalSame(s.reversals, LateReversedOf(boxes, list, item), s.reversals, LateReversedOf(s.boxes, list, item));
    TotalSame(s.reversals, ReversedOf(boxes, list, item), s.reversals, ReversedOf(s.boxes, list, item));
  }

  lemma BoxesKeep(s0: State, s: State, boxes: seq<Box>)
    requires Inv(s0, s) && BoxesKept(s, boxes)
    ensures Inv(s0, s.(boxes := boxes))
  {
    var t := s.(boxes := boxes);
    forall l: nat, i: Item
      ensures PackedOn(t.lines, t.boxes, t.boxItems, l, i)
      ensures ShippedOn(t.lines, t.boxes, t.boxItems, t.ledger, t.reversals, l, i)
    {
      assert PackedAt(s, l, i) && ShippedAt(s, l, i);
      BoxesKeptTotals(s, boxes, l, i);
    }
  }

  lemma OpenBoxKeeps(s0: State, s: State, list: Option<nat>, order: Option<nat>)
    requires Inv(s0, s) && OpenBox(s, list, order).Ok?
    ensures Inv(s0, OpenBox(s, list, order).value)
  {
    var t := OpenBox(s, list, order).value;
    forall b | 0 <= b < |t.boxes| ensures IsPacking(s.locations, t.boxes[b].packing) {
      if b < |s.boxes| {
      } else if list.Some? {
      }
    }
    BoxesKeep(s0, s, t.boxes);
  }

  // Reversals

  lemma GivenLines(s: State, list: nat, item: Item, q: real)
    requires Structure(s) && 0.0 <= q
    ensures var r := GiveBack(s.lines, list, item, q);
            && OnlyPacked(s.lines, r)
            && (forall i :: 0 <= i < |r| ==> 0.0 <= r[i].packed <= r[i].picked)
            && (forall i :: 0 <= i < |r| && !OnKey(s.lines[i], list, item) ==> r[i] == s.lines[i])
  {
    var r := GiveBack(s.lines, list, item, q);
    forall i | 0 <= i < |r| ensures
        && r[i] == s.lines[i].(packed := r[i].packed) && 0.0 <= r[i].packed <= r[i].picked
        && (!OnKey(s.lines[i], list, item) ==> r[i] == s.lines[i])
    {
      GivenRow(s.lines, list, item, q, i);
    }
  }

  lemma GiveBackArithmetic(packed: real, boxed: real, picked: real, q: real)
    requires packed <= boxed <= packed + picked * 0.0001
    requires 0.0 <= packed && 0.0 <= q <= boxed && 0.0 <= picked
    ensures Max(packed - q, 0.0) <= boxed - q <= Max(packed - q, 0.0) + picked * 0.0001
  {
  }

  lemma ReverseKeepsPackedAt(s: State, box: nat, item: Item, q: real, l: nat, i: Item)
    requires Structure(s) && PackedAt(s, l, i) && ReverseItem(s, box, item, q).Ok?
    ensures PackedAt(ReverseItem(s, box, item, q).value, l, i)
  {
    var t, list := ReverseItem(s, box, item, q).value, s.boxes[box].list.value;
    var k := LastInBox(s.boxItems, box, item).value;
    GivenLines(s, list, item, q);
    OnlyPackedTotals(s, t.lines, l, i);
    TotalUpdate(s.boxItems, k, t.boxItems[k], BoxedOf(s.boxes, l, i));
    if l == list && i == item {
      PackingGiveBack(s.lines, list, item, q);
      PackedWithinPicked(s, list, item);
      TotalAtLeastRow(s.boxItems, k, BoxedOf(s.boxes, l, i));
      GiveBackArithmetic(Total(s.lines, PackedOf(list, item)), Total(s.boxItems, BoxedOf(s.boxes, list, item)),
                         Total(s.lines, PickedOf(list, item)), q);
    } else {
      TotalSame(t.lines, PackedOf(l, i), s.lines, PackedOf(l, i));
    }
  }

  lemma ReverseKeepsShippedAt(s: State, box: nat, item: Item, q: real, l: nat, i: Item)
    requires Structure(s) && ShippedAt(s, l, i) && ReverseItem(s, box, item, q).Ok?
    ensures ShippedAt(ReverseItem(s, box, item, q).value, l, i)
  {
    var t, list := ReverseItem(s, box, item, q).value, s.boxes[box].list.value;
    var k := LastInBox(s.boxItems, box, item).value;
    GivenLines(s, list, item, q);
    OnlyPackedTotals(s, t.lines, l, i);
    TotalUpdate(s.boxItems, k, t.boxItems[k], InShippedBoxes(s.boxes, l, i));
    TotalPush(s.reversals, Reversal(box, item, q, s.boxes[box].shipped), LateReversedOf(s.boxes, l, i));
  }

  lemma ReverseKeeps(s0: State, s: State, box: nat, item: Item, q: real)
    requires Inv(s0, s) && ReverseItem(s, box, item, q).Ok?
    ensures Inv(s0, ReverseItem(s, box, item, q).value)
  {
    var t := ReverseItem(s, box, item, q).value;
    forall l: nat, i: Item
      ensures PackedOn(t.lines, t.boxes, t.boxItems, l, i)
      ensures ShippedOn(t.lines, t.boxes, t.boxItems, t.ledger, t.reversals, l, i)
    {
      ReverseKeepsPackedAt(s, box, item, q, l, i);
      ReverseKeepsShippedAt(s, box, item, q, l, i);
    }
    GivenLines(s, s.boxes[box].list.value, item, q);
    OnlyPackedKeeps(s0, s, t.lines);
    BoxRowsKeep(s0, s.(lines := t.lines), t.boxItems, t.reversals);
  }
}
