/** The tables the outbound engine reads and writes, and the sums taken over them.
    A row's id is its position in its table; tables only ever grow at the end. */
module OutboundTables {
  import opened Wrappers
  import opened Sums

  type Item = string

  datatype Kind = Storage | PickFace | PackingArea | Staging

  datatype Location = Location(warehouse: nat, code: string, kind: Kind, disabled: bool)

  /** One row of stock_location_balances (one batch per item). */
  datatype Balance = Balance(item: Item, location: nat, expiry: Option<int>, actual: real, reserved: real)

  datatype ListStatus = Draft | Open | ListCompleted | ListCancelled

  /** What a pick list is for; a list without a fulfilment type is a legacy one. */
  datatype Fulfilment = Legacy | ForOrder | ForWave | ForCounter

  datatype PickList = PickList(fulfilment: Fulfilment, warehouse: nat, packing: Option<nat>, status: ListStatus,
                               consumed: bool)

  datatype LineStatus = Pending | InProgress | PickedFull | Shortage | LineCancelled | PartlyDelivered | Delivered

  /** One row of pick_list_items. */
  datatype Line = Line(
    list: nat, item: Item, ordered: real, alloc: real, balance: Option<nat>, bin: Option<string>,
    expiry: Option<int>, picked: real, packed: real, consumed: real, status: LineStatus)

  datatype Box = Box(list: Option<nat>, order: Option<nat>, packing: Option<nat>, shipped: bool, loaded: bool)

  datatype BoxItem = BoxItem(box: nat, item: Item, quantity: real)

  /** One row of wave_order_lines. */
  datatype OrderLine = OrderLine(list: nat, order: nat, item: Item, required: real, consolidated: real)

  datatype Voucher = SalesShip(box: nat) | WaveWriteOff(list: nat)

  datatype LedgerEntry = LedgerEntry(item: Item, quantity: real, voucher: Voucher)

  /** One row of pack_reversals; `late` records that the box had shipped when it was reversed. */
  datatype Reversal = Reversal(box: nat, item: Item, quantity: real, late: bool)

  datatype Backorder = Backorder(list: nat, order: nat, item: Item, quantity: real)

  datatype Resolution = NoResolution | ReturnToStock | WriteOff | OtherResolution

  /** One row of wave_reconciliations. */
  datatype Reconciliation = Reconciliation(list: nat, leftover: real, resolution: Resolution, forced: bool)

  datatype State = State(
    locations: seq<Location>, balances: seq<Balance>, lists: seq<PickList>, lines: seq<Line>,
    boxes: seq<Box>, boxItems: seq<BoxItem>, orderLines: seq<OrderLine>, ledger: seq<LedgerEntry>,
    reversals: seq<Reversal>, backorders: seq<Backorder>, reconciliations: seq<Reconciliation>)

  datatype Error =
    | NotFound | QuantityRequired | LegacyPickList | NoPackingLocation | LineNotPickable | WrongItem
    | WrongLocation | OverPick | OverPack | BoxNotLinked | NoOrderLine | ReverseTooMuch
    | InsufficientInBox | InsufficientPack | NotReady | ReasonRequired | Forbidden | ResolutionRequired
    | NoPackingContext | NoStorageLocation | NothingAllocated | NotCounterSale

  // Sums over pick lines

  function OnLine(l: Line, list: nat, item: Item, q: real): real {
    if l.list == list && l.item == item then q else 0.0
  }

  function PickedOf(list: nat, item: Item): Line -> real { (l: Line) => OnLine(l, list, item, l.picked) }

  function PackedOf(list: nat, item: Item): Line -> real { (l: Line) => OnLine(l, list, item, l.packed) }

  function ConsumedOf(list: nat, item: Item): Line -> real { (l: Line) => OnLine(l, list, item, l.consumed) }

  /** Room left for packing, and for shipping, on the lines of one list and item. */
  function PackRoom(list: nat, item: Item): Line -> real {
    (l: Line) => OnLine(l, list, item, Max(l.picked - l.packed, 0.0))
  }

  function ShipRoom(list: nat, item: Item): Line -> real {
    (l: Line) => OnLine(l, list, item, Max(l.picked - l.consumed, 0.0))
  }

  /** Allocated but not yet picked, signed, on the lines drawing on one balance row. */
  function OpenOn(b: nat): Line -> real {
    (l: Line) => if l.balance == Some(b) then l.alloc - l.picked else 0.0
  }

  function PositiveOpenOn(b: nat): Line -> real {
    (l: Line) => if l.balance == Some(b) then Max(l.alloc - l.picked, 0.0) else 0.0
  }

  function OpenOf(item: Item): Line -> real {
    (l: Line) => if l.item == item then l.alloc - l.picked else 0.0
  }

  /** Picked beyond the allocation, which only the relative tolerance allows. */
  function OverPickedOf(item: Item): Line -> real {
    (l: Line) => if l.item == item then Max(l.picked - l.alloc, 0.0) else 0.0
  }

  function AllocatedOf(item: Item): Line -> real { (l: Line) => if l.item == item then l.alloc else 0.0 }

  // Sums over balances and the ledger

  function ActualOf(item: Item): Balance -> real { (b: Balance) => if b.item == item then b.actual else 0.0 }

  function ReservedOf(item: Item): Balance -> real { (b: Balance) => if b.item == item then b.reserved else 0.0 }

  function LedgerOf(item: Item): LedgerEntry -> real { (e: LedgerEntry) => if e.item == item then e.quantity else 0.0 }

  function ShipmentsOf(item: Item): LedgerEntry -> real {
    (e: LedgerEntry) => if e.item == item && e.voucher.SalesShip? then 1.0 else 0.0
  }

  function BoxList(boxes: seq<Box>, box: nat): Option<nat> {
    if box < |boxes| then boxes[box].list else None
  }

  /** Shipped out of the boxes of one pick list. */
  function ShippedOf(boxes: seq<Box>, list: nat, item: Item): LedgerEntry -> real {
    (e: LedgerEntry) =>
      if e.voucher.SalesShip? && BoxList(boxes, e.voucher.box) == Some(list) && e.item == item then -e.quantity else 0.0
  }

  // Sums over box items, reversals and order lines

  function InBox(box: nat, item: Item): BoxItem -> real {
    (r: BoxItem) => if r.box == box && r.item == item then r.quantity else 0.0
  }

  function BoxedOf(boxes: seq<Box>, list: nat, item: Item): BoxItem -> real {
    (r: BoxItem) => if BoxList(boxes, r.box) == Some(list) && r.item == item then r.quantity else 0.0
  }

  function InShippedBoxes(boxes: seq<Box>, list: nat, item: Item): BoxItem -> real {
    (r: BoxItem) =>
      if BoxList(boxes, r.box) == Some(list) && boxes[r.box].shipped && r.item == item then r.quantity else 0.0
  }

  function ReversedOf(boxes: seq<Box>, list: nat, item: Item): Reversal -> real {
    (r: Reversal) => if BoxList(boxes, r.box) == Some(list) && r.item == item then r.quantity else 0.0
  }

  function LateReversedOf(boxes: seq<Box>, list: nat, item: Item): Reversal -> real {
    (r: Reversal) => if r.late && BoxList(boxes, r.box) == Some(list) && r.item == item then r.quantity else 0.0
  }

  function ConsolidatedOf(list: nat, item: Item): OrderLine -> real {
    (w: OrderLine) => if w.list == list && w.item == item then w.consolidated else 0.0
  }

  function RequiredIn(list: nat, order: nat): OrderLine -> real {
    (w: OrderLine) => if w.list == list && w.order == order then w.required else 0.0
  }

  function ConsolidatedIn(list: nat, order: nat): OrderLine -> real {
    (w: OrderLine) => if w.list == list && w.order == order then w.consolidated else 0.0
  }

  function ShortOf(list: nat, order: nat, item: Item): OrderLine -> real {
    (w: OrderLine) => if w.list == list && w.order == order && w.item == item then w.required - w.consolidated else 0.0
  }

  function BackorderedOf(list: nat, order: nat, item: Item): Backorder -> real {
    (r: Backorder) => if r.list == list && r.order == order && r.item == item then r.quantity else 0.0
  }

  // Row lookups

  /** The lowest balance row of an item at a location. */
  function FindRow(balances: seq<Balance>, item: Item, location: nat): (r: Option<nat>)
    ensures r.Some? ==> r.value < |balances| && balances[r.value].item == item && balances[r.value].location == location
    ensures r.None? ==> forall i :: 0 <= i < |balances| ==> balances[i].item != item || balances[i].location != location
  {
    if |balances| == 0 then None
    else
      var last := |balances| - 1;
      var r := FindRow(balances[..last], item, location);
      if r.Some? then r
      else if balances[last].item == item && balances[last].location == location then Some(last)
      else None
  }

  function FindOrderLine(rows: seq<OrderLine>, list: nat, order: nat, item: Item): (r: Option<nat>)
    ensures r.Some? ==>
      r.value < |rows| && rows[r.value].list == list && rows[r.value].order == order && rows[r.value].item == item
    ensures r.None? ==> forall i :: 0 <= i < |rows| ==>
            !(rows[i].list == list && rows[i].order == order && rows[i].item == item)
  {
    if |rows| == 0 then None
    else
      var last := |rows| - 1;
      var r := FindOrderLine(rows[..last], list, order, item);
      if r.Some? then r
      else if rows[last].list == list && rows[last].order == order && rows[last].item == item then Some(last)
      else None
  }

  /** The newest row of an item in a box. */
  function LastInBox(rows: seq<BoxItem>, box: nat, item: Item): (r: Option<nat>)
    ensures r.Some? ==> r.value < |rows| && rows[r.value].box == box && rows[r.value].item == item
    ensures r.None? ==> forall i :: 0 <= i < |rows| ==> !(rows[i].box == box && rows[i].item == item)
    ensures r.Some? ==> forall i :: r.value < i < |rows| ==> !(rows[i].box == box && rows[i].item == item)
  {
    if |rows| == 0 then None
    else
      var last := |rows| - 1;
      if rows[last].box == box && rows[last].item == item then Some(last)
      else LastInBox(rows[..last], box, item)
  }

  /** The distinct items in a box, in the order they were first packed. */
  function ItemsInBox(rows: seq<BoxItem>, box: nat): (r: seq<Item>)
    ensures forall i, j :: 0 <= i < j < |r| ==> r[i] != r[j]
    ensures forall item :: item in r <==> exists k :: 0 <= k < |rows| && rows[k].box == box && rows[k].item == item
  {
    if |rows| == 0 then []
    else
      var last := |rows| - 1;
      var r := ItemsInBox(rows[..last], box);
      assert forall item :: item in r <==> exists k :: 0 <= k < last && rows[k].box == box && rows[k].item == item;
      if rows[last].box == box && rows[last].item !in r then r + [rows[last].item] else r
  }

  predicate AtPacking(locations: seq<Location>, b: Balance) {
    b.location < |locations| && locations[b.location].kind == PackingArea
  }
}
