/** What every outbound operation keeps: table structure, reservations against open pick lines,
    packed against boxed, consumed against shipped, and total stock against the ledger. */
module OutboundInvariant {
  import opened Wrappers
  import opened Sums
  import opened OutboundTables

  // Each clause speaks of the tables it depends on and of no other, so that an operation has to be
  // checked against a clause only when it changes one of them.

  ghost predicate IsPacking(locations: seq<Location>, location: Option<nat>) {
    location.Some? ==> location.value < |locations| && locations[location.value].kind == PackingArea
  }

  ghost predicate RowFits(locations: seq<Location>, b: Balance) {
    0.0 <= b.reserved && (if AtPacking(locations, b) then b.reserved == 0.0 else b.reserved <= b.actual)
  }

  ghost predicate RowsFit(locations: seq<Location>, balances: seq<Balance>) {
    forall i :: 0 <= i < |balances| ==> RowFits(locations, balances[i])
  }

  ghost predicate DrawsFrom(locations: seq<Location>, balances: seq<Balance>, item: Item, b: nat) {
    b < |balances| && balances[b].item == item && !AtPacking(locations, balances[b])
  }

  /** A line with an allocation draws on one row of its own item away from packing; a line without
      one is a shortage, which is never picked. */
  ghost predicate LineFits(locations: seq<Location>, balances: seq<Balance>, lists: nat, l: Line) {
    && l.list < lists
    && 0.0 <= l.packed <= l.picked && 0.0 <= l.consumed <= l.picked
    && 0.0 <= l.alloc && l.picked <= l.alloc * 1.0001
    && (l.status == Shortage <==> l.alloc == 0.0)
    && (l.alloc == 0.0 ==> l.balance.None?)
    && (l.alloc > 0.0 ==> l.balance.Some? && DrawsFrom(locations, balances, l.item, l.balance.value))
  }

  ghost predicate LinesFit(locations: seq<Location>, balances: seq<Balance>, lists: nat, lines: seq<Line>) {
    forall i :: 0 <= i < |lines| ==> LineFits(locations, balances, lists, lines[i])
  }

  ghost predicate ListsFit(locations: seq<Location>, lists: seq<PickList>) {
    forall i :: 0 <= i < |lists| ==> lists[i].packing.Some? && IsPacking(locations, lists[i].packing)
  }

  ghost predicate BoxesFit(locations: seq<Location>, boxes: seq<Box>) {
    forall i :: 0 <= i < |boxes| ==> IsPacking(locations, boxes[i].packing)
  }

  ghost predicate HasList(boxes: seq<Box>, box: nat) { box < |boxes| && boxes[box].list.Some? }

  ghost predicate BoxItemsFit(boxes: seq<Box>, rows: seq<BoxItem>) {
    forall i :: 0 <= i < |rows| ==> HasList(boxes, rows[i].box) && 0.0 <= rows[i].quantity
  }

  ghost predicate ReversalsFit(boxes: seq<Box>, rows: seq<Reversal>) {
    forall i :: 0 <= i < |rows| ==> HasList(boxes, rows[i].box) && 0.0 <= rows[i].quantity
  }

  ghost predicate Structure(s: State) {
    && RowsFit(s.locations, s.balances)
    && LinesFit(s.locations, s.balances, |s.lists|, s.lines)
    && ListsFit(s.locations, s.lists)
    && BoxesFit(s.locations, s.boxes)
    && BoxItemsFit(s.boxes, s.boxItems)
    && ReversalsFit(s.boxes, s.reversals)
  }

  /** A box's stock leaves packing at most once: the ledger holds at most one shipment for a box and
      an item, and only for a box marked as shipped. */
  ghost predicate ShippedOnceOn(boxes: seq<Box>, ledger: seq<LedgerEntry>) {
    && (forall i :: 0 <= i < |ledger| && ledger[i].voucher.SalesShip? ==>
          HasList(boxes, ledger[i].voucher.box) && boxes[ledger[i].voucher.box].shipped && ledger[i].quantity < 0.0)
    && (forall i, j :: 0 <= i < j < |ledger| ==>
          ledger[i].voucher.SalesShip? && ledger[i].voucher == ledger[j].voucher ==> ledger[i].item != ledger[j].item)
  }

  ghost predicate ShippedOnce(s: State) { ShippedOnceOn(s.boxes, s.ledger) }

  /** A row's reservation lies between what its lines still have to pick, signed, and the same with
      over-picked lines counted as nothing. */
  ghost predicate ReservedOn(balances: seq<Balance>, lines: seq<Line>, b: nat)
    requires b < |balances|
  {
    Total(lines, OpenOn(b)) <= balances[b].reserved <= Total(lines, PositiveOpenOn(b))
  }

  ghost predicate ReservationsOn(balances: seq<Balance>, lines: seq<Line>) {
    forall b: nat :: b < |balances| ==> ReservedOn(balances, lines, b)
  }

  ghost predicate ReservedAt(s: State, b: nat)
    requires b < |s.balances|
  {
    ReservedOn(s.balances, s.lines, b)
  }

  ghost predicate Reservations(s: State) { ReservationsOn(s.balances, s.lines) }

  ghost predicate PackedOn(lines: seq<Line>, boxes: seq<Box>, boxItems: seq<BoxItem>, list: nat, item: Item) {
    var packed, boxed := Total(lines, PackedOf(list, item)), Total(boxItems, BoxedOf(boxes, list, item));
    packed <= boxed <= packed + Total(lines, PickedOf(list, item)) * 0.0001
  }

  ghost predicate PackingsOn(lines: seq<Line>, boxes: seq<Box>, boxItems: seq<BoxItem>) {
    forall list: nat, item: Item :: PackedOn(lines, boxes, boxItems, list, item)
  }

  ghost predicate PackedAt(s: State, list: nat, item: Item) { PackedOn(s.lines, s.boxes, s.boxItems, list, item) }

  ghost predicate Packings(s: State) { PackingsOn(s.lines, s.boxes, s.boxItems) }

  ghost predicate ShippedOn(
    lines: seq<Line>, boxes: seq<Box>, boxItems: seq<BoxItem>, ledger: seq<LedgerEntry>, reversals: seq<Reversal>,
    list: nat, item: Item)
  {
    var consumed, shipped := Total(lines, ConsumedOf(list, item)), Total(ledger, ShippedOf(boxes, list, item));
    var late := Total(reversals, LateReversedOf(boxes, list, item));
    && consumed <= shipped <= consumed + Total(lines, PickedOf(list, item)) * 0.0001 + late
    && shipped <= Total(boxItems, InShippedBoxes(boxes, list, item)) + late
  }

  ghost predicate ShipmentsOn(
    lines: seq<Line>, boxes: seq<Box>, boxItems: seq<BoxItem>, ledger: seq<LedgerEntry>, reversals: seq<Reversal>)
  {
    forall list: nat, item: Item :: ShippedOn(lines, boxes, boxItems, ledger, reversals, list, item)
  }

  ghost predicate ShippedAt(s: State, list: nat, item: Item) {
    ShippedOn(s.lines, s.boxes, s.boxItems, s.ledger, s.reversals, list, item)
  }

  ghost predicate Shipments(s: State) { ShipmentsOn(s.lines, s.boxes, s.boxItems, s.ledger, s.reversals) }

  /** Reserved stock not backed by open pick lines: what clamping at zero has left over. */
  function UnbackedOn(balances: seq<Balance>, lines: seq<Line>, item: Item): real {
    Total(balances, ReservedOf(item)) - Total(lines, OpenOf(item))
  }

  function Unbacked(s: State, item: Item): real { UnbackedOn(s.balances, s.lines, item) }

  /** How far stock on hand and the ledger together exceed the opening stock. */
  function DriftOf(s0: State, s: State, item: Item): real {
    Total(s.balances, ActualOf(item)) - Total(s.ledger, LedgerOf(item)) - Total(s0.balances, ActualOf(item))
  }

  ghost predicate DriftOn(
    opening: seq<Balance>, balances: seq<Balance>, lines: seq<Line>, ledger: seq<LedgerEntry>, item: Item)
  {
    0.0 <= Total(balances, ActualOf(item)) - Total(ledger, LedgerOf(item)) - Total(opening, ActualOf(item))
        <= Total(ledger, ShipmentsOf(item)) * 0.0001 + UnbackedOn(balances, lines, item)
  }

  ghost predicate DriftsOn(opening: seq<Balance>, balances: seq<Balance>, lines: seq<Line>, ledger: seq<LedgerEntry>) {
    forall item: Item :: DriftOn(opening, balances, lines, ledger, item)
  }

  ghost predicate DriftAt(s0: State, s: State, item: Item) { DriftOn(s0.balances, s.balances, s.lines, s.ledger, item) }

  ghost predicate Drift(s0: State, s: State) { DriftsOn(s0.balances, s.balances, s.lines, s.ledger) }

  ghost predicate Inv(s0: State, s: State) {
    Structure(s) && ShippedOnce(s) && Reservations(s) && Packings(s) && Shipments(s) && Drift(s0, s)
  }

  /** The opening state: stock on the rows, nothing reserved, no documents yet. */
  ghost predicate Initial(s: State) {
    && (forall i :: 0 <= i < |s.balances| ==> s.balances[i].reserved == 0.0 && 0.0 <= s.balances[i].actual)
    && s.lists == [] && s.lines == [] && s.boxes == [] && s.boxItems == [] && s.orderLines == []
    && s.ledger == [] && s.reversals == [] && s.backorders == [] && s.reconciliations == []
  }

  lemma InitialIsOk(s: State)
    requires Initial(s)
    ensures Inv(s, s)
  {
    forall item: Item ensures DriftOn(s.balances, s.balances, s.lines, s.ledger, item) {
      TotalZero(s.balances, ReservedOf(item), |s.balances|);
    }
  }

  // Consequences for a reader of the tables

  function PositiveOpenBelow(item: Item, n: nat): Line -> real {
    (l: Line) => if l.item == item && l.balance.Some? && l.balance.value < n then Max(l.alloc - l.picked, 0.0) else 0.0
  }

  /** Rows of an item together reserve no more than the item's open pick lines ask for. */
  lemma {:induction false} ReservedBelow(s: State, item: Item, n: nat)
    requires Structure(s) && Reservations(s) && n <= |s.balances|
    ensures Sum(s.balances, ReservedOf(item), n) <= Total(s.lines, PositiveOpenBelow(item, n))
  {
    if n == 0 {
      TotalZero(s.lines, PositiveOpenBelow(item, 0), |s.lines|);
    } else {
      ReservedBelow(s, item, n - 1);
      assert ReservedAt(s, n - 1);
      if s.balances[n - 1].item == item {
        forall i | 0 <= i < |s.lines| ensures PositiveOpenBelow(item, n)(s.lines[i])
            == PositiveOpenBelow(item, n - 1)(s.lines[i]) + PositiveOpenOn(n - 1)(s.lines[i])
        {
        }
        TotalAdd(s.lines, PositiveOpenBelow(item, n - 1), s.lines, PositiveOpenOn(n - 1), s.lines,
                 PositiveOpenBelow(item, n));
      } else {
        TotalSame(s.lines, PositiveOpenBelow(item, n), s.lines, PositiveOpenBelow(item, n - 1));
      }
    }
  }

  /** The stock no shipment accounts for is at most what was picked beyond its allocation, which in
      turn is at most one part in ten thousand of what was allocated. */
  lemma UnbackedIsOverPick(s: State, item: Item)
    requires Structure(s) && Reservations(s)
    ensures Unbacked(s, item) <= Total(s.lines, OverPickedOf(item)) <= Total(s.lines, AllocatedOf(item)) * 0.0001
  {
    var n := |s.balances|;
    ReservedBelow(s, item, n);
    TotalAdd(s.lines, OpenOf(item), s.lines, OverPickedOf(item), s.lines, PositiveOpenBelow(item, n));
    SumScaled(s.lines, OverPickedOf(item), s.lines, AllocatedOf(item), |s.lines|);
  }

  /** When no line drawing on a row has been picked beyond its allocation, the row's reserved quantity
      is exactly what those lines still have to pick. */
  lemma ReservedIsExact(s: State, b: nat)
    requires Reservations(s) && b < |s.balances|
    requires forall i :: 0 <= i < |s.lines| && s.lines[i].balance == Some(b) ==> s.lines[i].picked <= s.lines[i].alloc
    ensures s.balances[b].reserved == Total(s.lines, OpenOn(b))
  {
    assert ReservedAt(s, b);
    TotalSame(s.lines, OpenOn(b), s.lines, PositiveOpenOn(b));
  }
}
