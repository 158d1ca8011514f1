/** Closing out a wave: leftover stock goes back to storage or is written off, and orders that stay
    short are backordered item by item. */
module Reconcile {
  import opened Wrappers
  import opened Sums
  import opened OutboundTables
  import opened OutboundSteps

  datatype Leftover = Leftover(item: Item, quantity: real)

  datatype Request = Request(force: bool, reasonGiven: bool, permitted: bool, resolution: Resolution)

  function LeftoverOf(lines: seq<Line>, list: nat, item: Item): real { Total(lines, PackRoom(list, item)) }

  /** The distinct items on a pick list, in line order. */
  function ItemsOnList(lines: seq<Line>, list: nat, n: nat): (r: seq<Item>)
    requires n <= |lines|
    ensures forall i, j :: 0 <= i < j < |r| ==> r[i] != r[j]
    ensures forall item :: item in r <==> exists k :: 0 <= k < n && lines[k].list == list && lines[k].item == item
  {
    if n == 0 then []
    else
      var r := ItemsOnList(lines, list, n - 1);
      if lines[n - 1].list == list && lines[n - 1].item !in r then r + [lines[n - 1].item] else r
  }

  /** Items with more than the tolerance still unpacked, with how much. */
  function Leftovers(lines: seq<Line>, list: nat, items: seq<Item>): (r: seq<Leftover>)
    ensures forall k :: 0 <= k < |r| ==> r[k].quantity > 0.0001
  {
    if |items| == 0 then []
    else
      var last := items[|items| - 1];
      var r := Leftovers(lines, list, items[..|items| - 1]);
      if LeftoverOf(lines, list, last) > 0.0001 then r + [Leftover(last, LeftoverOf(lines, list, last))] else r
  }

  function LeftoverBreakdown(s: State, list: nat): seq<Leftover> {
    Leftovers(s.lines, list, ItemsOnList(s.lines, list, |s.lines|))
  }

  const LEFT_OVER: Leftover -> real := (l: Leftover) => l.quantity

  // Orders

  predicate OrderComplete(rows: seq<OrderLine>, list: nat, order: nat) {
    var required, consolidated := Total(rows, RequiredIn(list, order)), Total(rows, ConsolidatedIn(list, order));
    required <= 0.0001 || required - consolidated <= 0.0001
  }

  /** The distinct orders of a wave. */
  function OrdersOf(rows: seq<OrderLine>, list: nat, n: nat): (r: seq<nat>)
    requires n <= |rows|
    ensures forall i, j :: 0 <= i < j < |r| ==> r[i] != r[j]
    ensures forall order: nat :: order in r <==>
              exists k :: 0 <= k < n && rows[k].list == list && rows[k].order == order
  {
    if n == 0 then []
    else
      var r := OrdersOf(rows, list, n - 1);
      if rows[n - 1].list == list && rows[n - 1].order !in r then r + [rows[n - 1].order] else r
  }

  function ItemsOfOrder(rows: seq<OrderLine>, list: nat, order: nat, n: nat): (r: seq<Item>)
    requires n <= |rows|
    ensures forall i, j :: 0 <= i < j < |r| ==> r[i] != r[j]
    ensures forall item :: item in r <==>
              exists k :: 0 <= k < n && rows[k].list == list && rows[k].order == order && rows[k].item == item
  {
    if n == 0 then []
    else
      var r := ItemsOfOrder(rows, list, order, n - 1);
      if rows[n - 1].list == list && rows[n - 1].order == order && rows[n - 1].item !in r then r + [rows[n - 1].item]
          else r
  }

  /** One backorder line for each item of the order that is short by more than the tolerance. */
  function ShortageLines(rows: seq<OrderLine>, list: nat, order: nat, items: seq<Item>): seq<Backorder> {
    if |items| == 0 then []
    else
      var r := ShortageLines(rows, list, order, items[..|items| - 1]);
      var item := items[|items| - 1];
      var short := Total(rows, ShortOf(list, order, item));
      if short > 0.0001 then r + [Backorder(list, order, item, short)] else r
  }

  function BackordersFor(rows: seq<OrderLine>, list: nat, orders: seq<nat>): seq<Backorder> {
    if |orders| == 0 then []
    else
      var r := BackordersFor(rows, list, orders[..|orders| - 1]);
      var order := orders[|orders| - 1];
      if OrderComplete(rows, list, order) then r
      else r + ShortageLines(rows, list, order, ItemsOfOrder(rows, list, order, |rows|))
  }

  predicate AllComplete(rows: seq<OrderLine>, list: nat) {
    forall order :: order in OrdersOf(rows, list, |rows|) ==> OrderComplete(rows, list, order)
  }

  // Disposing of leftover stock

  predicate IsStorage(s: State, location: nat, warehouse: nat) {
    && location < |s.locations| && s.locations[location].warehouse == warehouse && !s.locations[location].disabled
    && (s.locations[location].kind == Storage || s.locations[location].kind == PickFace)
  }

  predicate StoredAt(s: State, b: Balance, item: Item, warehouse: nat) {
    b.item == item && IsStorage(s, b.location, warehouse)
  }

  /** Among the first `n` rows, the storage row of the item with the most stock. */
  function FullestRow(s: State, item: Item, warehouse: nat, n: nat): (r: Option<nat>)
    requires n <= |s.balances|
    ensures r.Some? ==> r.value < n && StoredAt(s, s.balances[r.value], item, warehouse)
    ensures r.Some? ==> forall i :: 0 <= i < n && StoredAt(s, s.balances[i], item, warehouse) ==>
              s.balances[i].actual <= s.balances[r.value].actual
    ensures r.None? ==> forall i :: 0 <= i < n ==> !StoredAt(s, s.balances[i], item, warehouse)
  {
    if n == 0 then None
    else
      var r := FullestRow(s, item, warehouse, n - 1);
      var b := s.balances[n - 1];
      if StoredAt(s, b, item, warehouse) && (r.None? || b.actual > s.balances[r.value].actual) then Some(n - 1)
      else r
  }

  function FirstStorage(s: State, warehouse: nat, from: nat): (r: Option<nat>)
    requires from <= |s.locations|
    ensures r.Some? ==> IsStorage(s, r.value, warehouse)
    decreases |s.locations| - from
  {
    if from == |s.locations| then None
    else if IsStorage(s, from, warehouse) && s.locations[from].kind == Storage then Some(from)
    else FirstStorage(s, warehouse, from + 1)
  }

  /** Put it back where the item already lies, or else in the first storage location. */
  function PutBack(s: State, item: Item, warehouse: nat): (r: Option<nat>)
    ensures r.Some? ==> IsStorage(s, r.value, warehouse)
  {
    match FullestRow(s, item, warehouse, |s.balances|)
    case Some(i) => Some(s.balances[i].location)
    case None => FirstStorage(s, warehouse, 0)
  }

  function DisposeOne(s: State, list: nat, packing: nat, resolution: Resolution, l: Leftover): Outcome
    requires list < |s.lists|
  {
    match resolution
    case ReturnToStock =>
      (match PutBack(s, l.item, s.lists[list].warehouse)
       case None => Err(NoStorageLocation)
       case Some(location) =>
         Ok(s.(balances := Adjust(Adjust(s.balances, l.item, packing, -l.quantity), l.item, location, l.quantity))))
    case WriteOff =>
      Ok(s.(balances := Adjust(s.balances, l.item, packing, -l.quantity),
            ledger := s.ledger + [LedgerEntry(l.item, -l.quantity, WaveWriteOff(list))]))
    case NoResolution => Ok(s)
    case OtherResolution => Ok(s)
  }

  function DisposeAll(s: State, list: nat, packing: nat, resolution: Resolution, leftovers: seq<Leftover>): (r: Outcome)
    requires list < |s.lists|
    ensures r.Ok? ==> r.value == s.(balances := r.value.balances, ledger := r.value.ledger)
  {
    if |leftovers| == 0 then Ok(s)
    else match DisposeAll(s, list, packing, resolution, leftovers[..|leftovers| - 1])
      case Err(e) => Err(e)
      case Ok(t) => DisposeOne(t, list, packing, resolution, leftovers[|leftovers| - 1])
  }

  function CloseWave(s: State, list: nat, request: Request): Outcome {
    if list >= |s.lists| then Err(NotFound)
    else if s.lists[list].status == ListCompleted then Ok(s)
    else
      var leftovers := LeftoverBreakdown(s, list);
      var leftover := Total(leftovers, LEFT_OVER);
      var clean := leftover <= 0.0001 && AllComplete(s.orderLines, list);
      if !clean && !request.force then Err(NotReady)
      else if !clean && !request.reasonGiven then Err(ReasonRequired)
      else if !clean && !request.permitted then Err(Forbidden)
      else if !clean && leftover > 0.0001 && request.resolution == NoResolution then Err(ResolutionRequired)
      else
        var resolution := if clean then NoResolution else request.resolution;
        var moves := leftover > 0.0001 && (resolution == ReturnToStock || resolution == WriteOff);
        if moves && s.lists[list].packing.None? then Err(NoPackingContext)
        else
          var disposed := if moves then DisposeAll(s, list, s.lists[list].packing.value, resolution, leftovers)
              else Ok(s);
          match disposed
          case Err(e) => Err(e)
          case Ok(t) => Ok(t.(
            backorders := t.backorders + BackordersFor(s.orderLines, list,
                                                       OrdersOf(s.orderLines, list, |s.orderLines|)),
            reconciliations := t.reconciliations + [Reconciliation(list, leftover, resolution, !clean)],
            lists := t.lists[list := t.lists[list].(status := ListCompleted)]))
  }
}
