/** The outbound operations as functions on the tables. Each operation is one database transaction:
    an error leaves every table as it was. */
module OutboundSteps {
  import opened Wrappers
  import opened Sums
  import opened Greedy
  import opened OutboundTables

  type Outcome = Result<State, Error>

  /** A refused operation is rolled back. */
  function Committed(s: State, r: Outcome): State { if r.Ok? then r.value else s }

  // Stock primitives

  /** Lower actual and reserved on a row, each no further than zero. */
  function ConsumeReserved(balances: seq<Balance>, b: nat, q: real): seq<Balance>
    requires b < |balances|
  {
    balances[b := balances[b].(actual := Max(balances[b].actual - q, 0.0),
                               reserved := Max(balances[b].reserved - q, 0.0))]
  }

  /** Add a signed quantity to an item's row at a location, creating the row when there is none. */
  function Adjust(balances: seq<Balance>, item: Item, location: nat, delta: real): seq<Balance> {
    match FindRow(balances, item, location)
    case Some(i) => balances[i := balances[i].(actual := balances[i].actual + delta)]
    case None => balances + [Balance(item, location, None, delta, 0.0)]
  }

  // Picking

  datatype PickInput = PickInput(
    list: nat, line: Option<nat>, item: Item, scannedBin: string, expectedBin: string, quantity: real, overridden: bool)

  predicate Scannable(l: Line, list: nat, item: Item, bin: string) {
    && l.list == list && l.item == item
    && (l.status == Pending || l.status == InProgress)
    && (bin == "" || l.bin == Some(bin) || l.bin == None)
  }

  /** Scan order: a line in the scanned bin first, then earliest expiry, then the line id. */
  predicate ScannedBefore(a: Line, b: Line, bin: string) {
    if (a.bin == Some(bin)) != (b.bin == Some(bin)) then a.bin == Some(bin)
    else if a.expiry == b.expiry || a.expiry.None? then false
    else b.expiry.None? || a.expiry.value < b.expiry.value
  }

  /** The scannable line among the first `n` that no other one precedes, and of those the one with the lowest id. */
  function BestLine(lines: seq<Line>, list: nat, item: Item, bin: string, n: nat): (r: Option<nat>)
    requires n <= |lines|
    ensures r.Some? ==> r.value < n && Scannable(lines[r.value], list, item, bin)
    ensures r.Some? ==> forall i :: 0 <= i < n && Scannable(lines[i], list, item, bin) ==>
              !ScannedBefore(lines[i], lines[r.value], bin)
                  && (i < r.value ==> ScannedBefore(lines[r.value], lines[i], bin))
    ensures r.None? ==> forall i :: 0 <= i < n ==> !Scannable(lines[i], list, item, bin)
  {
    if n == 0 then None
    else
      var r := BestLine(lines, list, item, bin, n - 1);
      if !Scannable(lines[n - 1], list, item, bin) then r
      else if r.None? || ScannedBefore(lines[n - 1], lines[r.value], bin) then Some(n - 1)
      else r
  }

  function PickTarget(l: Line): real { if l.alloc <= 0.0 then l.ordered else l.alloc }

  function PickQuantity(input: PickInput): real { if input.quantity <= 0.0 then 1.0 else input.quantity }

  predicate Drifted(input: PickInput, l: Line) {
    var expected := if input.expectedBin == "" then (if l.bin.Some? then l.bin.value else "") else input.expectedBin;
    input.scannedBin != "" && expected != "" && input.scannedBin != expected
  }

  /** Which line a scan addresses and why it may be refused. */
  function CheckPick(s: State, input: PickInput): (r: Result<nat, Error>)
    ensures r.Ok? ==> r.value < |s.lines| && input.list < |s.lists| && s.lists[input.list].packing.Some?
    ensures r.Ok? ==> s.lists[input.list].fulfilment != Legacy && s.lines[r.value].list == input.list
    ensures r.Ok? ==> (input.line.Some? && r.value == input.line.value)
                      || (input.line.None? && BestLine(s.lines, input.list, input.item, input.scannedBin, |s.lines|)
                          == Some(r.value))
    ensures r.Ok? ==> s.lines[r.value].status != Shortage && s.lines[r.value].status != LineCancelled
    ensures r.Ok? ==> s.lines[r.value].status != PickedFull && s.lines[r.value].status != Delivered
    ensures r.Ok? ==> (input.item == "" || input.item == s.lines[r.value].item)
    ensures r.Ok? ==> (input.overridden || !Drifted(input, s.lines[r.value]))
    ensures r.Ok? ==> s.lines[r.value].picked + PickQuantity(input) <= PickTarget(s.lines[r.value]) * 1.0001
    ensures r.Ok? && s.lines[r.value].balance.Some? ==> s.lines[r.value].balance.value < |s.balances|
  {
    if input.list >= |s.lists| then Err(NotFound)
    else if s.lists[input.list].fulfilment == Legacy then Err(LegacyPickList)
    else if s.lists[input.list].packing.None? then Err(NoPackingLocation)
    else
      var found := match input.line
        case Some(i) => if i < |s.lines| && s.lines[i].list == input.list then Some(i) else None
        case None => BestLine(s.lines, input.list, input.item, input.scannedBin, |s.lines|);
      if found.None? then Err(LineNotPickable)
      else
        var l := s.lines[found.value];
        if l.status == Shortage || l.status == LineCancelled || l.status == PickedFull || l.status == Delivered
        then Err(LineNotPickable)
        else if input.item != "" && input.item != l.item then Err(WrongItem)
        else if Drifted(input, l) && !input.overridden then Err(WrongLocation)
        else if l.picked + PickQuantity(input) > PickTarget(l) + PickTarget(l) * 0.0001 then Err(OverPick)
        else if l.balance.Some? && l.balance.value >= |s.balances| then Err(NotFound)
        else Ok(found.value)
  }

  predicate StillToPick(lines: seq<Line>, list: nat) {
    exists i :: 0 <= i < |lines| && lines[i].list == list && lines[i].alloc > 0.0 && lines[i].picked < lines[i].alloc
  }

  function SettleList(pl: PickList, done: bool): PickList {
    if done && !pl.consumed then pl.(status := ListCompleted)
    else if pl.status == Draft then pl.(status := Open)
    else pl
  }

  /** Source stock down, packing stock up, picked quantity up; the list completes with its last line. */
  function Pick(s: State, list: nat, i: nat, q: real): State
    requires list < |s.lists| && s.lists[list].packing.Some? && i < |s.lines|
    requires s.lines[i].balance.Some? ==> s.lines[i].balance.value < |s.balances|
  {
    var l := s.lines[i];
    var taken := if l.balance.Some? then ConsumeReserved(s.balances, l.balance.value, q) else s.balances;
    var full := l.picked + q + PickTarget(l) * 0.0001 >= PickTarget(l);
    var lines := s.lines[i := l.(picked := l.picked + q, status := if full then PickedFull else InProgress)];
    s.(balances := Adjust(taken, l.item, s.lists[list].packing.value, q),
       lines := lines,
       lists := s.lists[list := SettleList(s.lists[list], !StillToPick(lines, list))])
  }

  function ConfirmPick(s: State, input: PickInput): Outcome {
    match CheckPick(s, input)
    case Err(e) => Err(e)
    case Ok(i) => Ok(Pick(s, input.list, i, PickQuantity(input)))
  }

  // Packing

  function SpreadPacked(lines: seq<Line>, list: nat, item: Item, q: real): (r: seq<Line>)
    ensures |r| == |lines|
  {
    seq(|lines|, (i: int) requires 0 <= i < |lines| =>
      lines[i].(packed := lines[i].packed + Take(lines, i, PackRoom(list, item), q)))
  }

  function AssignToBox(s: State, box: nat, list: nat, item: Item, q: real): Outcome {
    if q <= 0.0 then Err(QuantityRequired)
    else if box >= |s.boxes| then Err(NotFound)
    else if s.boxes[box].list != Some(list) then Err(BoxNotLinked)
    else
      var ceiling := Total(s.lines, PickedOf(list, item));
      if ceiling <= 0.0 then Err(OverPack)
      else if Total(s.boxItems, BoxedOf(s.boxes, list, item)) + q > ceiling + ceiling * 0.0001 then Err(OverPack)
      else Ok(s.(boxItems := s.boxItems + [BoxItem(box, item, q)], lines := SpreadPacked(s.lines, list, item, q)))
  }

  function LinkBox(s: State, box: nat, list: nat, order: nat): State {
    if box >= |s.boxes| then s
    else
      var b := s.boxes[box];
      s.(boxes := s.boxes[box := b.(list := if b.list.Some? then b.list else Some(list),
                                    order := if b.order.Some? then b.order else Some(order))])
  }

  function Consolidate(s: State, list: nat, order: nat, box: nat, item: Item, q: real): Outcome {
    if q <= 0.0 then Err(QuantityRequired)
    else match FindOrderLine(s.orderLines, list, order, item)
      case None => Err(NoOrderLine)
      case Some(w) =>
        var row := s.orderLines[w];
        if row.consolidated + q > row.required + row.required * 0.0001 then Err(OverPack)
        else match AssignToBox(LinkBox(s, box, list, order), box, list, item, q)
          case Err(e) => Err(e)
          case Ok(t) => Ok(t.(orderLines := t.orderLines[w := row.(consolidated := row.consolidated + q)]))
  }

  /** What a line can give back when a box item is reversed. */
  function PackedHeld(list: nat, item: Item): Line -> real { (l: Line) => OnLine(l, list, item, Max(l.packed, 0.0)) }

  function GiveBack(lines: seq<Line>, list: nat, item: Item, q: real): (r: seq<Line>)
    ensures |r| == |lines|
  {
    seq(|lines|, (i: int) requires 0 <= i < |lines| =>
      lines[i].(packed := lines[i].packed - Give(lines, i, PackedHeld(list, item), q)))
  }

  function ReverseItem(s: State, box: nat, item: Item, q: real): Outcome {
    if item == "" || q <= 0.0 then Err(QuantityRequired)
    else if box >= |s.boxes| then Err(NotFound)
    else if s.boxes[box].list.None? then Err(BoxNotLinked)
    else if q > Total(s.boxItems, InBox(box, item)) + 0.0001 then Err(ReverseTooMuch)
    else match LastInBox(s.boxItems, box, item)
      case None => Err(NotFound)
      case Some(k) =>
        if s.boxItems[k].quantity < q then Err(InsufficientInBox)
        else Ok(s.(
          boxItems := s.boxItems[k := s.boxItems[k].(quantity := s.boxItems[k].quantity - q)],
          lines := GiveBack(s.lines, s.boxes[box].list.value, item, q),
          reversals := s.reversals + [Reversal(box, item, q, s.boxes[box].shipped)]))
  }

  // Shipping

  /** The part of the tables a shipment moves. */
  datatype Stock = Stock(balances: seq<Balance>, lines: seq<Line>, ledger: seq<LedgerEntry>)

  function Deliver(l: Line, take: real): Line {
    if take <= 0.0 then l
    else
      var consumed := l.consumed + take;
      l.(consumed := consumed,
         status := if consumed + 0.0001 >= l.ordered then Delivered else if consumed > 0.0 then PartlyDelivered
         else l.status)
  }

  function SpreadConsumed(lines: seq<Line>, list: nat, item: Item, q: real): (r: seq<Line>)
    ensures |r| == |lines|
  {
    seq(|lines|, (i: int) requires 0 <= i < |lines| => Deliver(lines[i], Take(lines, i, ShipRoom(list, item), q)))
  }

  /** Take one item of a box out of packing, deliver it to the pick lines and post the ledger. */
  function ShipItem(k: Stock, rows: seq<BoxItem>, box: nat, list: nat, packing: nat, item: Item): Result<Stock, Error> {
    var q := Total(rows, InBox(box, item));
    if q <= 0.0 then Ok(k)
    else match FindRow(k.balances, item, packing)
      case None => Err(InsufficientPack)
      case Some(b) =>
        if k.balances[b].actual + 0.0001 < q then Err(InsufficientPack)
        else Ok(Stock(
          k.balances[b := k.balances[b].(actual := Max(k.balances[b].actual - q, 0.0))],
          SpreadConsumed(k.lines, list, item, q),
          k.ledger + [LedgerEntry(item, -q, SalesShip(box))]))
  }

  function ShipItems(
    k: Stock, rows: seq<BoxItem>, box: nat, list: nat, packing: nat, items: seq<Item>): Result<Stock, Error>
  {
    if |items| == 0 then Ok(k)
    else match ShipItems(k, rows, box, list, packing, items[..|items| - 1])
      case Err(e) => Err(e)
      case Ok(t) => ShipItem(t, rows, box, list, packing, items[|items| - 1])
  }

  predicate StillToShip(lines: seq<Line>, list: nat) {
    exists i :: 0 <= i < |lines| && lines[i].list == list && lines[i].picked > lines[i].consumed
  }

  function ShipBox(s: State, box: nat): Outcome {
    if box >= |s.boxes| then Err(NotFound)
    else if s.boxes[box].shipped then Ok(s)
    else if s.boxes[box].list.None? then Err(BoxNotLinked)
    else
      var list := s.boxes[box].list.value;
      if list >= |s.lists| then Err(NotFound)
      else if s.lists[list].fulfilment == Legacy then Err(LegacyPickList)
      else
        var packing := if s.boxes[box].packing.Some? then s.boxes[box].packing else s.lists[list].packing;
        if packing.None? then Err(NoPackingLocation)
        else match ShipItems(Stock(s.balances, s.lines, s.ledger), s.boxItems, box, list, packing.value,
                             ItemsInBox(s.boxItems, box))
          case Err(e) => Err(e)
          case Ok(k) => Ok(s.(
            balances := k.balances, lines := k.lines, ledger := k.ledger,
            boxes := s.boxes[box := s.boxes[box].(shipped := true, loaded := true)],
            lists := if StillToShip(k.lines, list) then s.lists
                     else s.lists[list := s.lists[list].(consumed := true, status := ListCompleted)]))
  }

  function SetLoaded(s: State, box: nat, shipped: bool): State
    requires box < |s.boxes|
  {
    s.(boxes := s.boxes[box := s.boxes[box].(loaded := true, shipped := shipped)])
  }

  /** Loading from the packing bench: ship a linked box, mark an unlinked one as gone. */
  function MarkLoaded(s: State, box: nat): Outcome {
    if box >= |s.boxes| then Err(NotFound)
    else if s.boxes[box].shipped || s.boxes[box].list.None? then Ok(SetLoaded(s, box, true))
    else match ShipBox(s, box)
      case Err(e) => Err(e)
      case Ok(t) => if box < |t.boxes| then Ok(SetLoaded(t, box, true)) else Ok(t)
  }

  /** Loading onto a trip: ship a linked box; an unlinked one is only marked loaded. */
  function LoadBox(s: State, box: nat): Outcome {
    if box >= |s.boxes| then Err(NotFound)
    else if s.boxes[box].shipped || s.boxes[box].list.None? then Ok(SetLoaded(s, box, s.boxes[box].shipped))
    else match ShipBox(s, box)
      case Err(e) => Err(e)
      case Ok(t) => if box < |t.boxes| then Ok(SetLoaded(t, box, t.boxes[box].shipped)) else Ok(t)
  }

  // Opening lists, order lines and boxes

  /** Pick lists are opened with a packing location of their warehouse. */
  function OpenList(s: State, fulfilment: Fulfilment, warehouse: nat, packing: nat): Outcome {
    if fulfilment == Legacy then Err(LegacyPickList)
    else if packing < |s.locations| && s.locations[packing].kind == PackingArea
        && s.locations[packing].warehouse == warehouse
    then Ok(s.(lists := s.lists + [PickList(fulfilment, warehouse, Some(packing), Open, false)]))
    else Err(NoPackingLocation)
  }

  function OpenBox(s: State, list: Option<nat>, order: Option<nat>): Outcome {
    if list.Some? && list.value >= |s.lists| then Err(NotFound)
    else Ok(s.(boxes := s.boxes + [Box(list, order, if list.Some? then s.lists[list.value].packing
                                       else None, false, false)]))
  }

  /** One row per list, order and item. */
  function AddOrderLine(s: State, list: nat, order: nat, item: Item, required: real): Outcome {
    if required <= 0.0 then Err(QuantityRequired)
    else if FindOrderLine(s.orderLines, list, order, item).Some? then Err(OverPack)
    else Ok(s.(orderLines := s.orderLines + [OrderLine(list, order, item, required, 0.0)]))
  }
}
