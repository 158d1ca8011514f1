/** What reconciling a wave keeps, what it moves, and which shortages it covers. */
module ReconcileKeeps {
  import opened Wrappers
  import opened Sums
  import opened OutboundTables
  import opened OutboundSteps
  import opened OutboundEffects
  import opened OutboundInvariant
  import opened ShipKeeps
  import opened Reconcile

  // Adjustments

  function Adjusted(s: State, item: Item, location: nat, delta: real): State {
    s.(balances := Adjust(s.balances, item, location, delta))
  }

  lemma AdjustKeepsStructure(s: State, item: Item, location: nat, delta: real)
    requires Structure(s)
    requires IsPacking(s.locations, Some(location)) || 0.0 <= delta
    ensures Structure(Adjusted(s, item, location, delta))
  {
  }

  lemma AdjustKeepsReservations(s: State, item: Item, location: nat, delta: real)
    requires Structure(s) && Reservations(s)
    ensures Reservations(Adjusted(s, item, location, delta))
  {
    var t := Adjusted(s, item, location, delta);
    forall b: nat | b < |t.balances| ensures ReservedOn(t.balances, t.lines, b) {
      if b < |s.balances| {
        assert ReservedAt(s, b);
      } else {
        TotalZero(s.lines, OpenOn(b), |s.lines|);
        TotalZero(s.lines, PositiveOpenOn(b), |s.lines|);
      }
    }
  }

  /** Balances and write-offs matter to neither the packing nor the shipping sums. */
  lemma DisposalKeepsBoxes(s: State, balances: seq<Balance>, entries: seq<LedgerEntry>)
    requires Packings(s) && Shipments(s) && ShippedOnce(s)
    requires |entries| <= 1 && forall i :: 0 <= i < |entries| ==> entries[i].voucher.WaveWriteOff?
    ensures var t := s.(balances := balances, ledger := s.ledger + entries);
            Packings(t) && Shipments(t) && ShippedOnce(t)
  {
    var t := s.(balances := balances, ledger := s.ledger + entries);
    forall l: nat, i: Item
      ensures PackedOn(t.lines, t.boxes, t.boxItems, l, i)
      ensures ShippedOn(t.lines, t.boxes, t.boxItems, t.ledger, t.reversals, l, i)
    {
      assert PackedAt(s, l, i) && ShippedAt(s, l, i);
      if |entries| == 1 {
        assert entries == [entries[0]];
        TotalPush(s.ledger, entries[0], ShippedOf(s.boxes, l, i));
      } else {
        assert s.ledger + entries == s.ledger;
      }
    }
  }

  function Returned(s: State, item: Item, packing: nat, location: nat, q: real): State {
    Adjusted(Adjusted(s, item, packing, -q), item, location, q)
  }

  lemma ReturnKeepsRest(s: State, item: Item, packing: nat, location: nat, q: real)
    requires Structure(s) && Reservations(s) && 0.0 <= q && IsPacking(s.locations, Some(packing))
    ensures Structure(Returned(s, item, packing, location, q)) && Reservations(Returned(s, item, packing, location, q))
  {
    var m := Adjusted(s, item, packing, -q);
    AdjustKeepsStructure(s, item, packing, -q);
    AdjustKeepsReservations(s, item, packing, -q);
    AdjustKeepsStructure(m, item, location, q);
    AdjustKeepsReservations(m, item, location, q);
  }

  /** Stock of an item moved by `delta`, and nothing reserved or freed. */
  ghost predicate MovesBy(a: seq<Balance>, b: seq<Balance>, item: Item, delta: real) {
    && Total(b, ActualOf(item)) == Total(a, ActualOf(item)) + delta
    && Total(b, ReservedOf(item)) == Total(a, ReservedOf(item))
  }

  lemma AdjustMoves(a: seq<Balance>, b: seq<Balance>, item: Item, location: nat, delta: real, other: Item)
    requires b == Adjust(a, item, location, delta)
    ensures MovesBy(a, b, other, if other == item then delta else 0.0)
  {
    AdjustTotals(a, item, location, delta, other);
  }

  lemma MovesTwice(a: seq<Balance>, b: seq<Balance>, c: seq<Balance>, item: Item, x: real, y: real)
    requires MovesBy(a, b, item, x) && MovesBy(b, c, item, y)
    ensures MovesBy(a, c, item, x + y)
  {
  }

  lemma ReturnTotals(s: State, item: Item, packing: nat, location: nat, q: real, other: Item)
    ensures MovesBy(s.balances, Returned(s, item, packing, location, q).balances, other, 0.0)
  {
    var m, t := Adjusted(s, item, packing, -q), Returned(s, item, packing, location, q);
    AdjustMoves(s.balances, m.balances, item, packing, -q, other);
    AdjustMoves(m.balances, t.balances, item, location, q, other);
    MovesTwice(s.balances, m.balances, t.balances, other,
               if other == item then -q else 0.0, if other == item then q else 0.0);
  }

  lemma ReturnKeepsDrift(s0: State, s: State, item: Item, packing: nat, location: nat, q: real)
    requires Drift(s0, s)
    ensures Drift(s0, Returned(s, item, packing, location, q))
  {
    var t := Returned(s, item, packing, location, q);
    forall i: Item ensures DriftOn(s0.balances, t.balances, t.lines, t.ledger, i) {
      assert DriftAt(s0, s, i);
      ReturnTotals(s, item, packing, location, q, i);
    }
  }

  lemma ReturnKeepsBoxes(s: State, item: Item, packing: nat, location: nat, q: real)
    requires Packings(s) && Shipments(s) && ShippedOnce(s)
    ensures var t := Returned(s, item, packing, location, q); Packings(t) && Shipments(t) && ShippedOnce(t)
  {
    assert s.ledger + [] == s.ledger;
    DisposalKeepsBoxes(s, Returned(s, item, packing, location, q).balances, []);
  }

  lemma ReturnKeeps(s0: State, s: State, item: Item, packing: nat, location: nat, q: real)
    requires Inv(s0, s) && 0.0 <= q && IsPacking(s.locations, Some(packing))
    ensures Inv(s0, Returned(s, item, packing, location, q))
  {
    ReturnKeepsRest(s, item, packing, location, q);
    ReturnKeepsDrift(s0, s, item, packing, location, q);
    ReturnKeepsBoxes(s, item, packing, location, q);
  }

  function WrittenOff(s: State, list: nat, item: Item, packing: nat, q: real): State {
    Adjusted(s, item, packing, -q).(ledger := s.ledger + [LedgerEntry(item, -q, WaveWriteOff(list))])
  }

  lemma WriteOffKeepsRest(s: State, list: nat, item: Item, packing: nat, q: real)
    requires Structure(s) && Reservations(s) && IsPacking(s.locations, Some(packing))
    ensures Structure(WrittenOff(s, list, item, packing, q)) && Reservations(WrittenOff(s, list, item, packing, q))
  {
    var m, t := Adjusted(s, item, packing, -q), WrittenOff(s, list, item, packing, q);
    AdjustKeepsStructure(s, item, packing, -q);
    AdjustKeepsReservations(s, item, packing, -q);
  }

  lemma WriteOffKeepsDrift(s0: State, s: State, list: nat, item: Item, packing: nat, q: real)
    requires Drift(s0, s)
    ensures Drift(s0, WrittenOff(s, list, item, packing, q))
  {
    var t, e := WrittenOff(s, list, item, packing, q), LedgerEntry(item, -q, WaveWriteOff(list));
    forall i: Item ensures DriftOn(s0.balances, t.balances, t.lines, t.ledger, i) {
      assert DriftAt(s0, s, i);
      AdjustTotals(s.balances, item, packing, -q, i);
      TotalPush(s.ledger, e, LedgerOf(i));
      TotalPush(s.ledger, e, ShipmentsOf(i));
    }
  }

  lemma WriteOffKeeps(s0: State, s: State, list: nat, item: Item, packing: nat, q: real)
    requires Inv(s0, s) && IsPacking(s.locations, Some(packing))
    ensures Inv(s0, WrittenOff(s, list, item, packing, q))
  {
    WriteOffKeepsRest(s, list, item, packing, q);
    WriteOffKeepsDrift(s0, s, list, item, packing, q);
    DisposalKeepsBoxes(s, Adjust(s.balances, item, packing, -q), [LedgerEntry(item, -q, WaveWriteOff(list))]);
  }

  lemma ReturnedIs(s: State, list: nat, packing: nat, l: Leftover, t: State)
    requires list < |s.lists| && DisposeOne(s, list, packing, ReturnToStock, l) == Ok(t)
    ensures PutBack(s, l.item, s.lists[list].warehouse).Some?
    ensures t == Returned(s, l.item, packing, PutBack(s, l.item, s.lists[list].warehouse).value, l.quantity)
  {
  }

  lemma ReturnedKeeps(s0: State, s: State, list: nat, packing: nat, l: Leftover, t: State)
    requires Inv(s0, s) && list < |s.lists| && IsPacking(s.locations, Some(packing)) && 0.0 <= l.quantity
    requires DisposeOne(s, list, packing, ReturnToStock, l) == Ok(t)
    ensures Inv(s0, t)
  {
    ReturnedIs(s, list, packing, l, t);
    ReturnKeeps(s0, s, l.item, packing, PutBack(s, l.item, s.lists[list].warehouse).value, l.quantity);
  }

  lemma DisposeOneKeeps(s0: State, s: State, list: nat, packing: nat, resolution: Resolution, l: Leftover, t: State)
    requires Inv(s0, s) && list < |s.lists| && IsPacking(s.locations, Some(packing)) && 0.0 <= l.quantity
    requires DisposeOne(s, list, packing, resolution, l) == Ok(t)
    ensures Inv(s0, t)
  {
    if resolution == ReturnToStock {
      ReturnedKeeps(s0, s, list, packing, l, t);
    } else if resolution == WriteOff {
      assert t == WrittenOff(s, list, l.item, packing, l.quantity);
      WriteOffKeeps(s0, s, list, l.item, packing, l.quantity);
    } else {
      assert t == s;
    }
  }

  lemma {:induction false} DisposeAllKeeps(
    s0: State, s: State, list: nat, packing: nat, resolution: Resolution, leftovers: seq<Leftover>, t: State)
    requires Inv(s0, s) && list < |s.lists| && IsPacking(s.locations, Some(packing))
    requires forall k :: 0 <= k < |leftovers| ==> 0.0 <= leftovers[k].quantity
    requires DisposeAll(s, list, packing, resolution, leftovers) == Ok(t)
    ensures Inv(s0, t)
  {
    if |leftovers| > 0 {
      var n := |leftovers| - 1;
      var m := DisposeAll(s, list, packing, resolution, leftovers[..n]).value;
      DisposeAllKeeps(s0, s, list, packing, resolution, leftovers[..n], m);
      DisposeOneKeeps(s0, m, list, packing, resolution, leftovers[n], t);
    }
  }

  lemma LogsKeep(
    s0: State, s: State, backorders: seq<Backorder>, reconciliations: seq<Reconciliation>, orderLines: seq<OrderLine>)
    requires Inv(s0, s)
    ensures Inv(s0, s.(backorders := backorders, reconciliations := reconciliations, orderLines := orderLines))
  {
  }

  lemma ReconcileKeeps(s0: State, s: State, list: nat, request: Request)
    requires Inv(s0, s) && CloseWave(s, list, request).Ok?
    ensures Inv(s0, CloseWave(s, list, request).value)
  {
    if s.lists[list].status != ListCompleted {
      var leftovers := LeftoverBreakdown(s, list);
      var r := CloseWave(s, list, request).value;
      assert IsPacking(s.locations, s.lists[list].packing);
      var t := s.(balances := r.balances, ledger := r.ledger);
      if r.balances != s.balances || r.ledger != s.ledger {
        DisposeAllKeeps(s0, s, list, s.lists[list].packing.value, request.resolution, leftovers, t);
      }
      LogsKeep(s0, t, r.backorders, r.reconciliations, t.orderLines);
      var u := t.(backorders := r.backorders, reconciliations := r.reconciliations);
      ListFlagsKeep(s0, u, r.lists);
    }
  }

  // What a disposal moves

  function QuantityOf(item: Item): Leftover -> real { (l: Leftover) => if l.item == item then l.quantity else 0.0 }

  lemma WriteOffTotals(s: State, list: nat, item: Item, packing: nat, q: real, other: Item)
    ensures var t := WrittenOff(s, list, item, packing, q);
            var lost := if item == other then q else 0.0;
            && Total(t.balances, ActualOf(other)) == Total(s.balances, ActualOf(other)) - lost
            && Total(t.ledger, LedgerOf(other)) == Total(s.ledger, LedgerOf(other)) - lost
  {
    AdjustTotals(s.balances, item, packing, -q, other);
    TotalPush(s.ledger, LedgerEntry(item, -q, WaveWriteOff(list)), LedgerOf(other));
  }

  lemma DisposeOneTotals(s: State, list: nat, packing: nat, resolution: Resolution, l: Leftover, t: State, item: Item)
    requires list < |s.lists| && DisposeOne(s, list, packing, resolution, l) == Ok(t)
    ensures var lost := if resolution == WriteOff then QuantityOf(item)(l) else 0.0;
            && Total(t.balances, ActualOf(item)) == Total(s.balances, ActualOf(item)) - lost
            && Total(t.ledger, LedgerOf(item)) == Total(s.ledger, LedgerOf(item)) - lost
  {
    if resolution == ReturnToStock {
      ReturnedIs(s, list, packing, l, t);
      ReturnTotals(s, l.item, packing, PutBack(s, l.item, s.lists[list].warehouse).value, l.quantity, item);
    } else if resolution == WriteOff {
      assert t == WrittenOff(s, list, l.item, packing, l.quantity);
      WriteOffTotals(s, list, l.item, packing, l.quantity, item);
    }
  }

  lemma {:induction false} DisposalTotals(
    s: State, list: nat, packing: nat, resolution: Resolution, leftovers: seq<Leftover>, t: State, item: Item)
    requires list < |s.lists| && DisposeAll(s, list, packing, resolution, leftovers) == Ok(t)
    ensures var lost := if resolution == WriteOff then Total(leftovers, QuantityOf(item)) else 0.0;
            && Total(t.balances, ActualOf(item)) == Total(s.balances, ActualOf(item)) - lost
            && Total(t.ledger, LedgerOf(item)) == Total(s.ledger, LedgerOf(item)) - lost
  {
    if |leftovers| > 0 {
      var n := |leftovers| - 1;
      var m := DisposeAll(s, list, packing, resolution, leftovers[..n]).value;
      DisposalTotals(s, list, packing, resolution, leftovers[..n], m, item);
      DisposeOneTotals(m, list, packing, resolution, leftovers[n], t, item);
      SumSame(leftovers, QuantityOf(item), leftovers[..n], QuantityOf(item), n);
    }
  }

  lemma {:induction false} LeftoverListed(lines: seq<Line>, list: nat, items: seq<Item>, item: Item)
    requires forall i, j :: 0 <= i < j < |items| ==> items[i] != items[j]
    ensures Total(Leftovers(lines, list, items), QuantityOf(item))
              == if item in items && LeftoverOf(lines, list, item) > 0.0001 then LeftoverOf(lines, list, item) else 0.0
  {
    if |items| > 0 {
      var n := |items| - 1;
      var head, last := items[..n], items[n];
      LeftoverListed(lines, list, head, item);
      TotalPush(Leftovers(lines, list, head), Leftover(last, LeftoverOf(lines, list, last)), QuantityOf(item));
    }
  }

  /** What is counted as left over of an item: all of it beyond the tolerance, nothing within it. */
  function Disposable(s: State, list: nat, item: Item): real {
    if LeftoverOf(s.lines, list, item) > 0.0001 then LeftoverOf(s.lines, list, item) else 0.0
  }

  lemma BreakdownOf(s: State, list: nat, item: Item)
    ensures Total(LeftoverBreakdown(s, list), QuantityOf(item)) == Disposable(s, list, item)
  {
    LeftoverListed(s.lines, list, ItemsOnList(s.lines, list, |s.lines|), item);
    if item !in ItemsOnList(s.lines, list, |s.lines|) {
      TotalZero(s.lines, PackRoom(list, item), |s.lines|);
    }
  }

  lemma BreakdownNonEmpty(s: State, list: nat, item: Item)
    requires Disposable(s, list, item) > 0.0
    ensures Total(LeftoverBreakdown(s, list), LEFT_OVER) > 0.0001
  {
    var leftovers := LeftoverBreakdown(s, list);
    BreakdownOf(s, list, item);
    TotalLe(leftovers, QuantityOf(item), leftovers, LEFT_OVER);
  }

  /** A reconciliation that goes through returns leftover stock without losing any, or writes it off
      with a ledger entry for exactly what is removed; with neither resolution nothing moves. */
  lemma ReconcileMoves(s: State, list: nat, request: Request, item: Item)
    requires CloseWave(s, list, request).Ok? && s.lists[list].status != ListCompleted
    ensures var t := CloseWave(s, list, request).value;
            var lost := if request.resolution == WriteOff then Disposable(s, list, item) else 0.0;
            && Total(t.balances, ActualOf(item)) == Total(s.balances, ActualOf(item)) - lost
            && Total(t.ledger, LedgerOf(item)) == Total(s.ledger, LedgerOf(item)) - lost
  {
    var leftovers := LeftoverBreakdown(s, list);
    BreakdownOf(s, list, item);
    if Disposable(s, list, item) > 0.0 {
      BreakdownNonEmpty(s, list, item);
    }
    if Total(leftovers, LEFT_OVER) > 0.0001 && (request.resolution == ReturnToStock || request.resolution == WriteOff) {
      var m := DisposeAll(s, list, s.lists[list].packing.value, request.resolution, leftovers).value;
      DisposalTotals(s, list, s.lists[list].packing.value, request.resolution, leftovers, m, item);
    }
  }

  // Warehouse by warehouse

  function InWarehouse(locations: seq<Location>, w: nat, item: Item): Balance -> real {
    (b: Balance) =>
      if b.item == item && b.location < |locations| && locations[b.location].warehouse == w then b.actual else 0.0
  }

  predicate Within(locations: seq<Location>, location: nat, w: nat) {
    location < |locations| && locations[location].warehouse == w
  }

  lemma AdjustInWarehouse(
    locations: seq<Location>, balances: seq<Balance>, item: Item, location: nat, delta: real, w: nat, other: Item)
    ensures Total(Adjust(balances, item, location, delta), InWarehouse(locations, w, other))
              == Total(balances, InWarehouse(locations, w, other))
               + (if other == item && Within(locations, location, w) then delta else 0.0)
  {
    match FindRow(balances, item, location)
    case Some(i) => TotalUpdate(balances, i, balances[i].(actual := balances[i].actual + delta),
                                InWarehouse(locations, w, other));
    case None => TotalPush(balances, Balance(item, location, None, delta, 0.0), InWarehouse(locations, w, other));
  }

  lemma DisposeOneInWarehouse(
    s: State, list: nat, packing: nat, resolution: Resolution, l: Leftover, t: State, w: nat, item: Item)
    requires list < |s.lists| && DisposeOne(s, list, packing, resolution, l) == Ok(t)
    requires Within(s.locations, packing, s.lists[list].warehouse)
    ensures Total(t.balances, InWarehouse(s.locations, w, item)) == Total(s.balances, InWarehouse(s.locations, w, item))
              - (if resolution == WriteOff && w == s.lists[list].warehouse then QuantityOf(item)(l) else 0.0)
  {
    AdjustInWarehouse(s.locations, s.balances, l.item, packing, -l.quantity, w, item);
    if resolution == ReturnToStock {
      AdjustInWarehouse(s.locations, Adjust(s.balances, l.item, packing, -l.quantity), l.item,
                        PutBack(s, l.item, s.lists[list].warehouse).value, l.quantity, w, item);
    }
  }

  lemma {:induction false} DisposalInWarehouse(
    s: State, list: nat, packing: nat, resolution: Resolution, leftovers: seq<Leftover>, t: State, w: nat, item: Item)
    requires list < |s.lists| && DisposeAll(s, list, packing, resolution, leftovers) == Ok(t)
    requires Within(s.locations, packing, s.lists[list].warehouse)
    ensures Total(t.balances, InWarehouse(s.locations, w, item)) == Total(s.balances, InWarehouse(s.locations, w, item))
              - (if resolution == WriteOff && w == s.lists[list].warehouse then Total(leftovers, QuantityOf(item))
                 else 0.0)
  {
    if |leftovers| > 0 {
      var n := |leftovers| - 1;
      var m := DisposeAll(s, list, packing, resolution, leftovers[..n]).value;
      DisposalInWarehouse(s, list, packing, resolution, leftovers[..n], m, w, item);
      DisposeOneInWarehouse(m, list, packing, resolution, leftovers[n], t, w, item);
      SumSame(leftovers, QuantityOf(item), leftovers[..n], QuantityOf(item), n);
    }
  }

  /** A list packs in its own warehouse; then returning leftover keeps what every warehouse holds of every
      item, and writing it off lowers only the list's own warehouse, by exactly the leftover. */
  lemma ReconcileInWarehouse(s: State, list: nat, request: Request, w: nat, item: Item)
    requires CloseWave(s, list, request).Ok? && s.lists[list].status != ListCompleted
    requires s.lists[list].packing.Some? ==> Within(s.locations, s.lists[list].packing.value, s.lists[list].warehouse)
    ensures var t := CloseWave(s, list, request).value;
            Total(t.balances, InWarehouse(s.locations, w, item)) == Total(s.balances, InWarehouse(s.locations, w, item))
              - (if request.resolution == WriteOff && w == s.lists[list].warehouse then Disposable(s, list, item)
                 else 0.0)
  {
    var leftovers, t := LeftoverBreakdown(s, list), CloseWave(s, list, request).value;
    BreakdownOf(s, list, item);
    if Disposable(s, list, item) > 0.0 {
      BreakdownNonEmpty(s, list, item);
    }
    if Total(leftovers, LEFT_OVER) > 0.0001 && (request.resolution == ReturnToStock || request.resolution == WriteOff) {
      var m := s.(balances := t.balances, ledger := t.ledger);
      DisposalInWarehouse(s, list, s.lists[list].packing.value, request.resolution, leftovers, m, w, item);
    }
  }

  lemma {:induction false} CompleteOrdersBackorderNothing(rows: seq<OrderLine>, list: nat, orders: seq<nat>)
    requires forall o :: o in orders ==> OrderComplete(rows, list, o)
    ensures BackordersFor(rows, list, orders) == []
  {
    if |orders| > 0 {
      assert orders[|orders| - 1] in orders;
      CompleteOrdersBackorderNothing(rows, list, orders[..|orders| - 1]);
    }
  }

  /** Without force a wave closes only when it is done: nothing beyond the tolerance is left of any item,
      and closing it moves no stock, posts nothing and backorders nothing. */
  lemma UnforcedIsClean(s: State, list: nat, request: Request, item: Item)
    requires CloseWave(s, list, request).Ok? && s.lists[list].status != ListCompleted && !request.force
    ensures var t := CloseWave(s, list, request).value;
            && Disposable(s, list, item) == 0.0 && AllComplete(s.orderLines, list)
            && t.balances == s.balances && t.ledger == s.ledger && t.backorders == s.backorders
  {
    if Disposable(s, list, item) > 0.0 {
      BreakdownNonEmpty(s, list, item);
    }
    CompleteOrdersBackorderNothing(s.orderLines, list, OrdersOf(s.orderLines, list, |s.orderLines|));
    assert s.backorders + [] == s.backorders;
  }

  // Which shortages are backordered

  lemma {:induction false} ShortageListed(
    rows: seq<OrderLine>, list: nat, order: nat, items: seq<Item>, o: nat, item: Item)
    requires forall i, j :: 0 <= i < j < |items| ==> items[i] != items[j]
    ensures var short := Total(rows, ShortOf(list, order, item));
            Total(ShortageLines(rows, list, order, items), BackorderedOf(list, o, item))
              == if o == order && item in items && short > 0.0001 then short else 0.0
  {
    if |items| > 0 {
      var n := |items| - 1;
      ShortageListed(rows, list, order, items[..n], o, item);
      TotalPush(ShortageLines(rows, list, order, items[..n]),
                Backorder(list, order, items[n], Total(rows, ShortOf(list, order, items[n]))),
                BackorderedOf(list, o, item));
    }
  }

  lemma {:induction false} BackordersListed(rows: seq<OrderLine>, list: nat, orders: seq<nat>, order: nat, item: Item)
    requires forall i, j :: 0 <= i < j < |orders| ==> orders[i] != orders[j]
    ensures var short := Total(rows, ShortOf(list, order, item));
            Total(BackordersFor(rows, list, orders), BackorderedOf(list, order, item))
              == if order in orders && !OrderComplete(rows, list, order) && short > 0.0001 then short else 0.0
  {
    if |orders| > 0 {
      var n := |orders| - 1;
      BackordersListed(rows, list, orders[..n], order, item);
      var items := ItemsOfOrder(rows, list, orders[n], |rows|);
      ShortageListed(rows, list, orders[n], items, order, item);
      TotalAppend(BackordersFor(rows, list, orders[..n]), ShortageLines(rows, list, orders[n], items),
                  BackorderedOf(list, order, item));
      if order == orders[n] && item !in items {
        TotalZero(rows, ShortOf(list, order, item), |rows|);
      }
    }
  }

  /** What a reconciliation backorders for an order's item. */
  function NewlyBackordered(s: State, list: nat, request: Request, order: nat, item: Item): real
    requires CloseWave(s, list, request).Ok?
  {
    Total(CloseWave(s, list, request).value.backorders, BackorderedOf(list, order, item))
      - Total(s.backorders, BackorderedOf(list, order, item))
  }

  /** An item short by more than the tolerance is backordered, and then in full, exactly when its
      order counts as incomplete as a whole. */
  lemma ShortageBackorderedIff(s: State, list: nat, request: Request, order: nat, item: Item)
    requires CloseWave(s, list, request).Ok? && s.lists[list].status != ListCompleted
    requires Total(s.orderLines, ShortOf(list, order, item)) > 0.0001
    ensures NewlyBackordered(s, list, request, order, item)
              == if OrderComplete(s.orderLines, list, order) then 0.0
                  else Total(s.orderLines, ShortOf(list, order, item))
  {
    var rows := s.orderLines;
    var orders := OrdersOf(rows, list, |rows|);
    BackordersListed(rows, list, orders, order, item);
    TotalAppend(s.backorders, BackordersFor(rows, list, orders), BackorderedOf(list, order, item));
    if order !in orders {
      TotalZero(rows, ShortOf(list, order, item), |rows|);
    }
  }

  ghost predicate NotOverConsolidated(s: State, list: nat, order: nat) {
    forall k :: 0 <= k < |s.orderLines| && s.orderLines[k].list == list && s.orderLines[k].order == order ==>
      0.0 <= s.orderLines[k].consolidated <= s.orderLines[k].required
  }

  function ShortIn(list: nat, order: nat): OrderLine -> real {
    (w: OrderLine) => if w.list == list && w.order == order then w.required - w.consolidated else 0.0
  }

  /** With no line of the order over-consolidated, consolidated and backordered quantities together
      cover what each item requires, to within the tolerance. */
  lemma EveryOrderIsCovered(s: State, list: nat, request: Request, order: nat, item: Item)
    requires CloseWave(s, list, request).Ok? && s.lists[list].status != ListCompleted
    requires NotOverConsolidated(s, list, order)
    ensures Total(s.orderLines, ShortOf(list, order, item)) - NewlyBackordered(s, list, request, order, item) <= 0.0001
  {
    var rows := s.orderLines;
    if Total(rows, ShortOf(list, order, item)) > 0.0001 {
      ShortageBackorderedIff(s, list, request, order, item);
      TotalLe(rows, ShortOf(list, order, item), rows, ShortIn(list, order));
      TotalLe(rows, ShortOf(list, order, item), rows, RequiredIn(list, order));
      TotalAdd(rows, ShortIn(list, order), rows, ConsolidatedIn(list, order), rows, RequiredIn(list, order));
    } else {
      BackordersListed(rows, list, OrdersOf(rows, list, |rows|), order, item);
      TotalAppend(s.backorders, BackordersFor(rows, list, OrdersOf(rows, list, |rows|)),
                  BackorderedOf(list, order, item));
    }
  }
}
