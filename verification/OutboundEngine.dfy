/** The outbound engine as it runs: tables updated in place, loops that carry a remaining quantity, and
    roll-back when an operation is refused. Every method is proved against its function on the tables. */
module OutboundEngine {
  import opened Wrappers
  import opened Sums
  import opened Greedy
  import opened OutboundTables
  import opened OutboundSteps
  import opened Fefo
  import opened Reconcile
  import CounterSale

  // Stopping a pouring loop early changes nothing further down

  lemma {:induction false} NothingLeft<T(!new)>(rows: seq<T>, k: nat, room: T -> real, q: real, j: nat)
    requires k <= j < |rows| && (forall i :: 0 <= i < |rows| ==> 0.0 <= room(rows[i]))
    requires Remaining(rows, k, room, q) <= 0.0
    ensures Remaining(rows, j, room, q) == 0.0 && Take(rows, j, room, q) == 0.0
  {
    SumGrows(rows, room, k, j);
  }

  lemma {:induction false} NoMoreSlices(s: State, list: nat, cands: seq<nat>, need: real, k: nat, n: nat)
    requires k <= n <= |cands| && Drawable(s.balances, cands)
    requires Remaining(cands, k, AvailableAt(s.balances), need) <= 0.0
    ensures ReservedRows(s.balances, cands, AvailableAt(s.balances), need, n)
              == ReservedRows(s.balances, cands, AvailableAt(s.balances), need, k)
    ensures SliceLines(s, list, cands, need, n) == SliceLines(s, list, cands, need, k)
    ensures Remaining(cands, n, AvailableAt(s.balances), need) == Remaining(cands, k, AvailableAt(s.balances), need)
  {
    if k < n {
      NoMoreSlices(s, list, cands, need, k, n - 1);
      NothingLeft(cands, k, AvailableAt(s.balances), need, n - 1);
      RemainingStep(cands, n - 1, AvailableAt(s.balances), need);
      var r := ReservedRows(s.balances, cands, AvailableAt(s.balances), need, n - 1);
      assert r[cands[n - 1] := r[cands[n - 1]]] == r;
    }
  }

  /** Where the allocation loop stands after `k` candidates. */
  ghost predicate Slicing(
    s: State, list: nat, cands: seq<nat>, need: real, k: nat, remaining: real, rows: seq<Balance>, written: seq<Line>)
  {
    && k <= |cands| && Drawable(s.balances, cands)
    && remaining == Remaining(cands, k, AvailableAt(s.balances), need)
    && rows == ReservedRows(s.balances, cands, AvailableAt(s.balances), need, k)
    && written == SliceLines(s, list, cands, need, k)
  }

  function NextTake(s: State, c: nat, remaining: real): real
    requires c < |s.balances|
  {
    if Available(s.balances[c]) > remaining then remaining else Available(s.balances[c])
  }

  /** One turn of the loop: the reservation fits, and rows, lines and remainder advance by it. */
  lemma SliceStep(
    s: State, list: nat, cands: seq<nat>, need: real, k: nat, remaining: real, rows: seq<Balance>, written: seq<Line>)
    requires Slicing(s, list, cands, need, k, remaining, rows, written) && k < |cands| && remaining > 0.0
    ensures var c := cands[k];
            && |rows| == |s.balances| && c < |rows|
            && var take := NextTake(s, c, remaining);
            && 0.0 < take <= Available(rows[c])
            && Slicing(s, list, cands, need, k + 1, remaining - take,
                       rows[c := rows[c].(reserved := rows[c].reserved + take)],
                       written + [SliceLine(s, list, c, take)])
  {
    SliceReserved(s.balances, cands, AvailableAt(s.balances), need, k, k);
    RemainingStep(cands, k, AvailableAt(s.balances), need);
  }

  /** What the loop has done when it stops, at the end or with nothing remaining. */
  lemma SlicesDone(
    s: State, list: nat, item: Item, need: real, k: nat, remaining: real, rows: seq<Balance>, written: seq<Line>,
    shortageRow: bool)
    requires list < |s.lists| && need > 0.0
    requires Slicing(s, list, CandidatesFor(s, list, item), need, k, remaining, rows, written)
    requires k < |CandidatesFor(s, list, item)| ==> remaining <= 0.0
    ensures remaining == Max(need - Total(CandidatesFor(s, list, item), AvailableAt(s.balances)), 0.0)
    ensures Allocate(s, list, item, need, shortageRow).balances == rows
    ensures NewLines(s, list, item, need, shortageRow)
              == if shortageRow && remaining > 0.0 then written + [ShortageLine(list, item, remaining)] else written
  {
    var cands := CandidatesFor(s, list, item);
    if k < |cands| {
      NoMoreSlices(s, list, cands, need, k, |cands|);
    }
  }

  /** One turn of the packing loop. */
  lemma PackStep(rows: seq<Line>, list: nat, item: Item, q: real, i: nat)
    requires i < |rows|
    ensures var room, l := PackRoom(list, item), rows[i];
            var take := if l.list == list && l.item == item && l.picked - l.packed > 0.0
                        then Min(l.picked - l.packed, Remaining(rows, i, room, q)) else 0.0;
            && SpreadPacked(rows, list, item, q)[i] == l.(packed := l.packed + take)
            && Remaining(rows, i + 1, room, q) == Remaining(rows, i, room, q) - take
  {
    RemainingStep(rows, i, PackRoom(list, item), q);
  }

  lemma RestUnpacked(rows: seq<Line>, list: nat, item: Item, q: real, i: nat)
    requires i <= |rows| && (i < |rows| ==> Remaining(rows, i, PackRoom(list, item), q) <= 0.0)
    ensures forall j :: i <= j < |rows| ==> SpreadPacked(rows, list, item, q)[j] == rows[j]
  {
    forall j | i <= j < |rows| ensures SpreadPacked(rows, list, item, q)[j] == rows[j] {
      NothingLeft(rows, i, PackRoom(list, item), q, j);
    }
  }

  /** What the delivery loop takes for a line when `remaining` is left. */
  function DeliveryTake(l: Line, list: nat, item: Item, remaining: real): real {
    if l.list == list && l.item == item && l.picked - l.consumed > 0.0 then
      if l.picked - l.consumed > remaining then remaining else l.picked - l.consumed
    else 0.0
  }

  /** Where the delivery loop stands after `i` lines. */
  ghost predicate Delivering(was: seq<Line>, list: nat, item: Item, q: real, i: nat, remaining: real, now: seq<Line>) {
    && i <= |was| == |now| && remaining == Remaining(was, i, ShipRoom(list, item), q)
    && (forall j :: 0 <= j < i ==> now[j] == SpreadConsumed(was, list, item, q)[j])
    && (forall j :: i <= j < |was| ==> now[j] == was[j])
  }

  lemma DeliveryIs(was: seq<Line>, list: nat, item: Item, q: real, i: nat)
    requires i < |was|
    ensures var remaining := Remaining(was, i, ShipRoom(list, item), q);
            var take := DeliveryTake(was[i], list, item, remaining);
            && SpreadConsumed(was, list, item, q)[i] == Deliver(was[i], take)
            && Remaining(was, i + 1, ShipRoom(list, item), q) == remaining - take
  {
    RemainingStep(was, i, ShipRoom(list, item), q);
    assert Take(was, i, ShipRoom(list, item), q)
           == DeliveryTake(was[i], list, item, Remaining(was, i, ShipRoom(list, item), q));
  }

  /** One turn of the delivery loop. */
  lemma DeliverStep(was: seq<Line>, list: nat, item: Item, q: real, i: nat, remaining: real, now: seq<Line>)
    requires Delivering(was, list, item, q, i, remaining, now) && i < |was|
    ensures var take := DeliveryTake(now[i], list, item, remaining);
            Delivering(was, list, item, q, i + 1, remaining - take, now[i := Deliver(now[i], take)])
  {
    DeliveryIs(was, list, item, q, i);
  }

  lemma RestUndelivered(rows: seq<Line>, list: nat, item: Item, q: real, i: nat)
    requires i <= |rows| && (i < |rows| ==> Remaining(rows, i, ShipRoom(list, item), q) <= 0.0)
    ensures forall j :: i <= j < |rows| ==> SpreadConsumed(rows, list, item, q)[j] == rows[j]
  {
    forall j | i <= j < |rows| ensures SpreadConsumed(rows, list, item, q)[j] == rows[j] {
      NothingLeft(rows, i, ShipRoom(list, item), q, j);
    }
  }

  /** What the delivery loop has done when it stops, at the end or with nothing remaining. */
  lemma DeliveryDone(was: seq<Line>, list: nat, item: Item, q: real, i: nat, remaining: real, now: seq<Line>)
    requires Delivering(was, list, item, q, i, remaining, now) && (i < |was| ==> remaining <= 0.0)
    ensures now == SpreadConsumed(was, list, item, q)
  {
    RestUndelivered(was, list, item, q, i);
  }

  /** What is still to be given back when the rows from `i` up have given their part. */
  function StillOwed(rows: seq<Line>, held: Line -> real, i: nat, q: real): real
    requires i <= |rows|
  {
    Max(q - (Total(rows, held) - Sum(rows, held, i)), 0.0)
  }

  /** One turn of the give-back loop. */
  lemma GiveStep(rows: seq<Line>, list: nat, item: Item, q: real, i: nat)
    requires i < |rows|
    ensures var owed, l := StillOwed(rows, PackedHeld(list, item), i + 1, q), rows[i];
            var take := if l.list == list && l.item == item && l.packed > 0.0 then Min(l.packed, owed) else 0.0;
            && GiveBack(rows, list, item, q)[i] == l.(packed := l.packed - take)
            && StillOwed(rows, PackedHeld(list, item), i, q) == owed - take
  {
    assert GiveBack(rows, list, item, q)[i].packed == rows[i].packed - Give(rows, i, PackedHeld(list, item), q);
  }

  lemma RestUnasked(rows: seq<Line>, list: nat, item: Item, q: real, i: nat)
    requires i <= |rows| && (i > 0 ==> StillOwed(rows, PackedHeld(list, item), i, q) <= 0.0)
    ensures forall j :: 0 <= j < i ==> GiveBack(rows, list, item, q)[j] == rows[j]
  {
    forall j | 0 <= j < i ensures GiveBack(rows, list, item, q)[j] == rows[j] {
      SumGrows(rows, PackedHeld(list, item), j + 1, i);
    }
  }

  lemma {:induction false} AssignPickedRefuses(s: State, box: nat, list: nat, items: seq<Item>, n: nat)
    requires n <= |items| && CounterSale.AssignPicked(s, box, list, items[..n]).Err?
    ensures CounterSale.AssignPicked(s, box, list, items).Err?
    decreases |items|
  {
    if n < |items| {
      var m := |items| - 1;
      assert items[..m][..n] == items[..n];
      AssignPickedRefuses(s, box, list, items[..m], n);
    } else {
      assert items[..n] == items;
    }
  }

  /** One more leftover disposed of. */
  lemma DisposesOneMore(
    s: State, list: nat, packing: nat, resolution: Resolution, leftovers: seq<Leftover>, k: nat, t: State)
    requires list < |s.lists| == |t.lists| && k < |leftovers|
    requires DisposeAll(s, list, packing, resolution, leftovers[..k]) == Ok(t)
    ensures DisposeAll(s, list, packing, resolution, leftovers[..k + 1])
              == DisposeOne(t, list, packing, resolution, leftovers[k])
  {
    assert leftovers[..k + 1][..k] == leftovers[..k];
  }

  lemma {:induction false} DisposalRefuses(
    s: State, list: nat, packing: nat, resolution: Resolution, leftovers: seq<Leftover>, n: nat)
    requires list < |s.lists| && n <= |leftovers| && DisposeAll(s, list, packing, resolution, leftovers[..n]).Err?
    ensures DisposeAll(s, list, packing, resolution, leftovers).Err?
    decreases |leftovers|
  {
    if n < |leftovers| {
      var m := |leftovers| - 1;
      assert leftovers[..m][..n] == leftovers[..n];
      DisposalRefuses(s, list, packing, resolution, leftovers[..m], n);
    } else {
      assert leftovers[..n] == leftovers;
    }
  }

  /** One item that cannot be taken out of packing stops the whole box. */
  lemma {:induction false} ShipItemsRefuse(
    k: Stock, rows: seq<BoxItem>, box: nat, list: nat, packing: nat, items: seq<Item>, n: nat)
    requires n <= |items| && ShipItems(k, rows, box, list, packing, items[..n]).Err?
    ensures ShipItems(k, rows, box, list, packing, items).Err?
    decreases |items|
  {
    if n < |items| {
      var m := |items| - 1;
      assert items[..m][..n] == items[..n];
      ShipItemsRefuse(k, rows, box, list, packing, items[..m], n);
    } else {
      assert items[..n] == items;
    }
  }

  /** One more line of a cart. */
  lemma SellsOneMore(s: State, list: nat, demands: seq<CounterSale.Demand>, k: nat)
    requires list < |s.lists| && k < |demands|
    ensures var t, d := CounterSale.SellAll(s, list, demands[..k]), demands[k];
            var short := CounterSale.Short(t, list, d);
            && CounterSale.SellAll(s, list, demands[..k + 1]) == Allocate(t, list, d.item, d.quantity, false)
            && CounterSale.Unmet(s, list, demands[..k + 1])
                 == CounterSale.Unmet(s, list, demands[..k]) + if short > 0.0 then [CounterSale.Demand(d.item, short)]
                     else []
  {
    assert demands[..k + 1][..k] == demands[..k];
  }

  class Engine {
    var locations: seq<Location>
    var balances: seq<Balance>
    var lists: seq<PickList>
    var lines: seq<Line>
    var boxes: seq<Box>
    var boxItems: seq<BoxItem>
    var orderLines: seq<OrderLine>
    var ledger: seq<LedgerEntry>
    var reversals: seq<Reversal>
    var backorders: seq<Backorder>
    var reconciliations: seq<Reconciliation>

    function View(): State
      reads this
    {
      State(locations, balances, lists, lines, boxes, boxItems, orderLines, ledger, reversals, backorders,
            reconciliations)
    }

    constructor (opening: State)
      ensures View() == opening
    {
      locations, balances, lists, lines := opening.locations, opening.balances, opening.lists, opening.lines;
      boxes, boxItems, orderLines, ledger := opening.boxes, opening.boxItems, opening.orderLines, opening.ledger;
      reversals, backorders, reconciliations := opening.reversals, opening.backorders, opening.reconciliations;
    }

    // Allocation

    /** Refuses unless the row has at least the quantity free. */
    method ReserveBalance(b: nat, q: real) returns (ok: bool)
      requires b < |balances|
      modifies `balances
      ensures ok <==> q <= 0.0 || q <= Available(old(balances)[b])
      ensures balances == if ok && q > 0.0 then
              old(balances)[b := old(balances)[b].(reserved := old(balances)[b].reserved + q)]
                          else old(balances)
    {
      if q <= 0.0 { return true; }
      if Available(balances[b]) < q { return false; }
      balances := balances[b := balances[b].(reserved := balances[b].reserved + q)];
      return true;
    }

    /** Reserves slices in FEFO order and returns the rows to be written, the shortage row last. None of
        the reservations can be refused. */
    method AllocateFEFO(list: nat, item: Item, need: real) returns (out: seq<Line>)
      requires list < |lists|
      modifies `balances
      ensures balances == Allocate(old(View()), list, item, need, true).balances
      ensures out == if need <= 0.0 then [] else NewLines(old(View()), list, item, need, true)
    {
      out := [];
      if need <= 0.0 { return; }
      var s := View();
      var cands := CandidatesFor(s, list, item);
      var remaining, k := need, 0;
      while k < |cands|
        invariant Slicing(s, list, cands, need, k, remaining, balances, out)
      {
        if remaining <= 0.0 { break; }
        SliceStep(s, list, cands, need, k, remaining, balances, out);
        var take := NextTake(s, cands[k], remaining);
        var ok := ReserveBalance(cands[k], take);
        assert ok;
        out := out + [SliceLine(s, list, cands[k], take)];
        remaining := remaining - take;
        k := k + 1;
      }
      SlicesDone(s, list, item, need, k, remaining, balances, out, true);
      if remaining > 0.0 {
        out := out + [ShortageLine(list, item, remaining)];
      }
    }

    /** The counter's own copy of the loop: it writes each line as it reserves it, keeps no shortage row
        and reports the shortage to its caller. It reserves the same slices. */
    method SellLine(list: nat, item: Item, need: real) returns (short: real)
      requires list < |lists|
      modifies `balances, `lines
      ensures balances == Allocate(old(View()), list, item, need, false).balances
      ensures lines == Allocate(old(View()), list, item, need, false).lines
      ensures short == if need <= 0.0 then need
                       else Max(need - Total(CandidatesFor(old(View()), list, item), AvailableAt(old(balances))), 0.0)
    {
      var s := View();
      short := need;
      if need <= 0.0 { return; }
      var cands, k := CandidatesFor(s, list, item), 0;
      ghost var sold: seq<Line> := [];
      while k < |cands|
        invariant Slicing(s, list, cands, need, k, short, balances, sold)
        invariant lines == s.lines + sold
      {
        if short <= 0.0 { break; }
        SliceStep(s, list, cands, need, k, short, balances, sold);
        var take := NextTake(s, cands[k], short);
        var ok := ReserveBalance(cands[k], take);
        assert ok;
        lines, sold := lines + [SliceLine(s, list, cands[k], take)], sold + [SliceLine(s, list, cands[k], take)];
        short := short - take;
        k := k + 1;
      }
      SlicesDone(s, list, item, need, k, short, balances, sold, false);
    }

    // Picking

    /** Moves the stock, advances the line, and completes the list with its last open line. */
    method PickLine(list: nat, i: nat, q: real) returns (completed: bool)
      requires list < |lists| && lists[list].packing.Some? && i < |lines|
      requires lines[i].balance.Some? ==> lines[i].balance.value < |balances|
      modifies `balances, `lines, `lists
      ensures View() == Pick(old(View()), list, i, q)
      ensures completed <==> !StillToPick(lines, list)
    {
      var l := lines[i];
      var target := PickTarget(l);
      var tolerance := target * 0.0001;
      if l.balance.Some? {
        balances := ConsumeReserved(balances, l.balance.value, q);
      }
      balances := Adjust(balances, l.item, lists[list].packing.value, q);
      var status := InProgress;
      if l.picked + q + tolerance >= target { status := PickedFull; }
      lines := lines[i := l.(picked := l.picked + q, status := status)];
      var header := lists[list];
      if header.status == Draft { header := header.(status := Open); }
      completed := !StillToPick(lines, list);
      if completed && !header.consumed { header := header.(status := ListCompleted); }
      lists := lists[list := header];
    }

    method ConfirmPick(input: PickInput) returns (r: Result<bool, Error>)
      modifies `balances, `lines, `lists
      ensures r.Err? <==> OutboundSteps.ConfirmPick(old(View()), input).Err?
      ensures View() == Committed(old(View()), OutboundSteps.ConfirmPick(old(View()), input))
      ensures r.Ok? ==> (r.value <==> !StillToPick(lines, input.list))
    {
      var checked := CheckPick(View(), input);
      if checked.Err? { return Err(checked.error); }
      var completed := PickLine(input.list, checked.value, PickQuantity(input));
      return Ok(completed);
    }

    // Packing

    /** Raises packed quantities, lowest line first, until nothing remains. */
    method SpreadOverLines(list: nat, item: Item, q: real)
      requires 0.0 < q
      modifies `lines
      ensures lines == SpreadPacked(old(lines), list, item, q)
    {
      ghost var was, goal := lines, SpreadPacked(lines, list, item, q);
      var remaining, i := q, 0;
      while i < |lines|
        invariant 0 <= i <= |lines| == |was|
        invariant remaining == Remaining(was, i, PackRoom(list, item), q)
        invariant forall j :: 0 <= j < i ==> lines[j] == goal[j]
        invariant forall j :: i <= j < |was| ==> lines[j] == was[j]
      {
        if remaining <= 0.0 { break; }
        PackStep(was, list, item, q, i);
        var l := lines[i];
        if l.list == list && l.item == item && l.picked - l.packed > 0.0 {
          var take := if l.picked - l.packed > remaining then remaining else l.picked - l.packed;
          lines := lines[i := l.(packed := l.packed + take)];
          remaining := remaining - take;
        }
        i := i + 1;
      }
      RestUnpacked(was, list, item, q, i);
    }

    method AssignToBox(box: nat, list: nat, item: Item, q: real) returns (r: Result<nat, Error>)
      modifies `boxItems, `lines
      ensures r.Err? <==> OutboundSteps.AssignToBox(old(View()), box, list, item, q).Err?
      ensures View() == Committed(old(View()), OutboundSteps.AssignToBox(old(View()), box, list, item, q))
      ensures r.Ok? ==> r.value == |old(boxItems)| && boxItems == old(boxItems) + [BoxItem(box, item, q)]
    {
      if q <= 0.0 { return Err(QuantityRequired); }
      if box >= |boxes| { return Err(NotFound); }
      if boxes[box].list != Some(list) { return Err(BoxNotLinked); }
      var ceiling := Total(lines, PickedOf(list, item));
      if ceiling <= 0.0 { return Err(OverPack); }
      var packed := Total(boxItems, BoxedOf(boxes, list, item));
      var tolerance := ceiling * 0.0001;
      if packed + q > ceiling + tolerance { return Err(OverPack); }
      r := Ok(|boxItems|);
      boxItems := boxItems + [BoxItem(box, item, q)];
      SpreadOverLines(list, item, q);
    }

    method Consolidate(list: nat, order: nat, box: nat, item: Item, q: real) returns (r: Result<nat, Error>)
      modifies `boxes, `boxItems, `lines, `orderLines
      ensures r.Err? <==> OutboundSteps.Consolidate(old(View()), list, order, box, item, q).Err?
      ensures View() == Committed(old(View()), OutboundSteps.Consolidate(old(View()), list, order, box, item, q))
    {
      if q <= 0.0 { return Err(QuantityRequired); }
      var found := FindOrderLine(orderLines, list, order, item);
      if found.None? { return Err(NoOrderLine); }
      var row := orderLines[found.value];
      var tolerance := row.required * 0.0001;
      if row.consolidated + q > row.required + tolerance { return Err(OverPack); }
      var before := boxes;
      boxes := LinkBox(View(), box, list, order).boxes;
      r := AssignToBox(box, list, item, q);
      if r.Err? {
        boxes := before;
        return;
      }
      orderLines := orderLines[found.value := row.(consolidated := row.consolidated + q)];
    }

    /** Lowers packed quantities, highest line first, until nothing remains. */
    method TakeOffLines(list: nat, item: Item, q: real)
      requires 0.0 < q
      modifies `lines
      ensures lines == GiveBack(old(lines), list, item, q)
    {
      ghost var was, goal := lines, GiveBack(lines, list, item, q);
      var remaining, i := q, |lines|;
      while i > 0
        invariant 0 <= i <= |lines| == |was|
        invariant remaining == StillOwed(was, PackedHeld(list, item), i, q)
        invariant forall j :: i <= j < |was| ==> lines[j] == goal[j]
        invariant forall j :: 0 <= j < i ==> lines[j] == was[j]
      {
        if remaining <= 0.0 { break; }
        GiveStep(was, list, item, q, i - 1);
        var l := lines[i - 1];
        if l.list == list && l.item == item && l.packed > 0.0 {
          var take := if l.packed > remaining then remaining else l.packed;
          lines := lines[i - 1 := l.(packed := l.packed - take)];
          remaining := remaining - take;
        }
        i := i - 1;
      }
      RestUnasked(was, list, item, q, i);
    }

    method ReverseItem(box: nat, item: Item, q: real) returns (r: Result<real, Error>)
      modifies `boxItems, `lines, `reversals
      ensures r.Err? <==> OutboundSteps.ReverseItem(old(View()), box, item, q).Err?
      ensures View() == Committed(old(View()), OutboundSteps.ReverseItem(old(View()), box, item, q))
    {
      if item == "" || q <= 0.0 { return Err(QuantityRequired); }
      if box >= |boxes| { return Err(NotFound); }
      if boxes[box].list.None? { return Err(BoxNotLinked); }
      if q > Total(boxItems, InBox(box, item)) + 0.0001 { return Err(ReverseTooMuch); }
      var newest := LastInBox(boxItems, box, item);
      if newest.None? { return Err(NotFound); }
      var k := newest.value;
      if boxItems[k].quantity < q { return Err(InsufficientInBox); }
      boxItems := boxItems[k := boxItems[k].(quantity := boxItems[k].quantity - q)];
      TakeOffLines(boxes[box].list.value, item, q);
      reversals := reversals + [Reversal(box, item, q, boxes[box].shipped)];
      return Ok(q);
    }

    // Shipping

    /** Delivers `q` to the pick lines in id order. */
    method DeliverToLines(list: nat, item: Item, q: real)
      requires 0.0 < q
      modifies `lines
      ensures lines == SpreadConsumed(old(lines), list, item, q)
    {
      ghost var was := lines;
      var remaining, i := q, 0;
      while i < |lines|
        invariant Delivering(was, list, item, q, i, remaining, lines)
      {
        if remaining <= 0.0 { break; }
        DeliverStep(was, list, item, q, i, remaining, lines);
        var take := DeliveryTake(lines[i], list, item, remaining);
        lines := lines[i := Deliver(lines[i], take)];
        remaining := remaining - take;
        i := i + 1;
      }
      DeliveryDone(was, list, item, q, i, remaining, lines);
    }

    method ShipOne(box: nat, list: nat, packing: nat, item: Item) returns (r: Result<(), Error>)
      modifies `balances, `lines, `ledger
      ensures var o := ShipItem(Stock(old(balances), old(lines), old(ledger)), boxItems, box, list, packing, item);
              && (r.Err? <==> o.Err?) && (o.Err? ==> r.error == o.error)
              && Stock(balances, lines, ledger) == if o.Ok? then o.value
                 else Stock(old(balances), old(lines), old(ledger))
    {
      var q := Total(boxItems, InBox(box, item));
      if q <= 0.0 { return Ok(()); }
      var found := FindRow(balances, item, packing);
      if found.None? { return Err(InsufficientPack); }
      var b := found.value;
      if balances[b].actual + 0.0001 < q { return Err(InsufficientPack); }
      balances := balances[b := balances[b].(actual := Max(balances[b].actual - q, 0.0))];
      DeliverToLines(list, item, q);
      ledger := ledger + [LedgerEntry(item, -q, SalesShip(box))];
      return Ok(());
    }

    method ShipContents(box: nat, list: nat, packing: nat, items: seq<Item>) returns (r: Result<(), Error>)
      modifies `balances, `lines, `ledger
      ensures var o := ShipItems(Stock(old(balances), old(lines), old(ledger)), boxItems, box, list, packing, items);
              && (r.Err? <==> o.Err?)
              && Stock(balances, lines, ledger) == if o.Ok? then o.value
                 else Stock(old(balances), old(lines), old(ledger))
    {
      var before, k := Stock(balances, lines, ledger), 0;
      while k < |items|
        invariant 0 <= k <= |items|
        invariant ShipItems(before, boxItems, box, list, packing, items[..k]) == Ok(Stock(balances, lines, ledger))
      {
        assert items[..k + 1][..k] == items[..k];
        r := ShipOne(box, list, packing, items[k]);
        if r.Err? {
          balances, lines, ledger := before.balances, before.lines, before.ledger;
          ShipItemsRefuse(before, boxItems, box, list, packing, items, k + 1);
          return;
        }
        k := k + 1;
      }
      assert items[..k] == items;
      return Ok(());
    }

    method ShipBox(box: nat) returns (r: Result<(), Error>)
      modifies `balances, `lines, `ledger, `boxes, `lists
      ensures r.Err? <==> OutboundSteps.ShipBox(old(View()), box).Err?
      ensures View() == Committed(old(View()), OutboundSteps.ShipBox(old(View()), box))
    {
      if box >= |boxes| { return Err(NotFound); }
      if boxes[box].shipped { return Ok(()); }
      if boxes[box].list.None? { return Err(BoxNotLinked); }
      var list := boxes[box].list.value;
      if list >= |lists| { return Err(NotFound); }
      if lists[list].fulfilment == Legacy { return Err(LegacyPickList); }
      var place := if boxes[box].packing.Some? then boxes[box].packing else lists[list].packing;
      if place.None? { return Err(NoPackingLocation); }
      r := ShipContents(box, list, place.value, ItemsInBox(boxItems, box));
      if r.Err? { return; }
      boxes := boxes[box := boxes[box].(shipped := true, loaded := true)];
      if !StillToShip(lines, list) {
        lists := lists[list := lists[list].(consumed := true, status := ListCompleted)];
      }
      return Ok(());
    }

    method MarkLoaded(box: nat) returns (r: Result<(), Error>)
      modifies `balances, `lines, `ledger, `boxes, `lists
      ensures r.Err? <==> OutboundSteps.MarkLoaded(old(View()), box).Err?
      ensures View() == Committed(old(View()), OutboundSteps.MarkLoaded(old(View()), box))
    {
      if box >= |boxes| { return Err(NotFound); }
      if !boxes[box].shipped && boxes[box].list.Some? {
        r := ShipBox(box);
        if r.Err? { return; }
      } else if !boxes[box].shipped {
        boxes := boxes[box := boxes[box].(shipped := true)];
      }
      boxes := boxes[box := boxes[box].(loaded := true)];
      return Ok(());
    }

    method LoadBox(box: nat) returns (r: Result<(), Error>)
      modifies `balances, `lines, `ledger, `boxes, `lists
      ensures r.Err? <==> OutboundSteps.LoadBox(old(View()), box).Err?
      ensures View() == Committed(old(View()), OutboundSteps.LoadBox(old(View()), box))
    {
      if box >= |boxes| { return Err(NotFound); }
      if !boxes[box].shipped && boxes[box].list.Some? {
        r := ShipBox(box);
        if r.Err? { return; }
      }
      boxes := boxes[box := boxes[box].(loaded := true)];
      return Ok(());
    }

    // Counter sales

    /** One line of a cart. */
    method SellDemand(list: nat, d: CounterSale.Demand) returns (short: real)
      requires list < |lists|
      modifies `balances, `lines
      ensures View() == Allocate(old(View()), list, d.item, d.quantity, false)
      ensures short == CounterSale.Short(old(View()), list, d)
    {
      short := SellLine(list, d.item, d.quantity);
    }

    /** Allocates a cart line by line and lists what it is short of. */
    method SellLines(list: nat, demands: seq<CounterSale.Demand>) returns (shortages: seq<CounterSale.Demand>)
      requires list < |lists|
      modifies `balances, `lines
      ensures View() == CounterSale.SellAll(old(View()), list, demands)
      ensures shortages == CounterSale.Unmet(old(View()), list, demands)
    {
      ghost var before := View();
      shortages := [];
      var k := 0;
      while k < |demands|
        invariant 0 <= k <= |demands|
        invariant View() == CounterSale.SellAll(before, list, demands[..k])
        invariant shortages == CounterSale.Unmet(before, list, demands[..k])
      {
        SellsOneMore(before, list, demands, k);
        var remaining := SellDemand(list, demands[k]);
        if remaining > 0.0 { shortages := shortages + [CounterSale.Demand(demands[k].item, remaining)]; }
        k := k + 1;
      }
      assert demands[..k] == demands;
    }

    /** A cart for which nothing could be reserved is refused. */
    method CreateSession(
      list: nat, demands: seq<CounterSale.Demand>) returns (r: Result<seq<CounterSale.Demand>, Error>)
      requires list < |lists|
      modifies `balances, `lines
      ensures var t := CounterSale.SellAll(old(View()), list, demands);
              && (r.Err? <==> |t.lines| == |old(lines)|)
              && View() == (if r.Ok? then t else old(View()))
              && (r.Ok? ==> r.value == CounterSale.Unmet(old(View()), list, demands))
    {
      var before := View();
      var shortages := SellLines(list, demands);
      if |lines| == |before.lines| {
        balances, lines := before.balances, before.lines;
        return Err(NothingAllocated);
      }
      return Ok(shortages);
    }

    method AssignAllOf(box: nat, list: nat, item: Item) returns (r: Result<(), Error>)
      modifies `boxItems, `lines
      ensures var o := CounterSale.AssignAllOf(old(View()), box, list, item);
              (r.Err? <==> o.Err?) && View() == Committed(old(View()), o)
    {
      var q := Total(lines, PickedOf(list, item));
      if q > 0.0 {
        var packed := AssignToBox(box, list, item, q);
        if packed.Err? { return Err(packed.error); }
      }
      return Ok(());
    }

    method AssignPicked(box: nat, list: nat, items: seq<Item>) returns (r: Result<(), Error>)
      modifies `boxItems, `lines
      ensures r.Err? <==> CounterSale.AssignPicked(old(View()), box, list, items).Err?
      ensures r.Ok? ==> View() == CounterSale.AssignPicked(old(View()), box, list, items).value
    {
      ghost var before := View();
      var k := 0;
      while k < |items|
        invariant 0 <= k <= |items|
        invariant CounterSale.AssignPicked(before, box, list, items[..k]) == Ok(View())
      {
        assert items[..k + 1][..k] == items[..k];
        r := AssignAllOf(box, list, items[k]);
        if r.Err? {
          AssignPickedRefuses(before, box, list, items, k + 1);
          return;
        }
        k := k + 1;
      }
      assert items[..k] == items;
      return Ok(());
    }

    method CompleteSession(list: nat) returns (r: Result<nat, Error>)
      modifies `balances, `lines, `ledger, `boxes, `boxItems, `lists
      ensures r.Err? <==> CounterSale.CompleteSale(old(View()), list).Err?
      ensures View() == Committed(old(View()), CounterSale.CompleteSale(old(View()), list))
      ensures r.Ok? ==> r.value == |old(boxes)|
    {
      if list >= |lists| { return Err(NotFound); }
      if lists[list].fulfilment != ForCounter { return Err(NotCounterSale); }
      if Total(lines, CounterSale.PositiveOpenIn(list)) > 0.0001 { return Err(NotReady); }
      var before, box, items := View(), |boxes|, ItemsOnList(lines, list, |lines|);
      boxes := boxes + [Box(Some(list), None, lists[list].packing, false, false)];
      var packed := AssignPicked(box, list, items);
      if packed.Err? {
        boxes, boxItems, lines := before.boxes, before.boxItems, before.lines;
        return Err(packed.error);
      }
      var shipped := ShipBox(box);
      if shipped.Err? {
        boxes, boxItems, lines := before.boxes, before.boxItems, before.lines;
        return Err(shipped.error);
      }
      return Ok(box);
    }

    // Closing a wave

    method ReturnOne(list: nat, packing: nat, l: Leftover) returns (r: Result<(), Error>)
      requires list < |lists|
      modifies `balances
      ensures var o := DisposeOne(old(View()), list, packing, ReturnToStock, l);
              (r.Err? <==> o.Err?) && View() == Committed(old(View()), o)
    {
      var place := PutBack(View(), l.item, lists[list].warehouse);
      if place.None? { return Err(NoStorageLocation); }
      balances := Adjust(balances, l.item, packing, -l.quantity);
      balances := Adjust(balances, l.item, place.value, l.quantity);
      return Ok(());
    }

    method ReturnLeftoverToStock(list: nat, packing: nat, leftovers: seq<Leftover>) returns (r: Result<(), Error>)
      requires list < |lists|
      modifies `balances
      ensures var o := DisposeAll(old(View()), list, packing, ReturnToStock, leftovers);
              (r.Err? <==> o.Err?) && (o.Ok? ==> View() == o.value)
    {
      ghost var before := View();
      var k := 0;
      while k < |leftovers|
        invariant 0 <= k <= |leftovers|
        invariant DisposeAll(before, list, packing, ReturnToStock, leftovers[..k]) == Ok(View())
      {
        DisposesOneMore(before, list, packing, ReturnToStock, leftovers, k, View());
        r := ReturnOne(list, packing, leftovers[k]);
        if r.Err? {
          DisposalRefuses(before, list, packing, ReturnToStock, leftovers, k + 1);
          return;
        }
        k := k + 1;
      }
      assert leftovers[..k] == leftovers;
      return Ok(());
    }

    method WriteOffOne(list: nat, packing: nat, l: Leftover)
      requires list < |lists|
      modifies `balances, `ledger
      ensures DisposeOne(old(View()), list, packing, WriteOff, l) == Ok(View())
    {
      balances := Adjust(balances, l.item, packing, -l.quantity);
      ledger := ledger + [LedgerEntry(l.item, -l.quantity, WaveWriteOff(list))];
    }

    method WriteOffLeftover(list: nat, packing: nat, leftovers: seq<Leftover>)
      requires list < |lists|
      modifies `balances, `ledger
      ensures DisposeAll(old(View()), list, packing, WriteOff, leftovers) == Ok(View())
    {
      ghost var before := View();
      var k := 0;
      while k < |leftovers|
        invariant 0 <= k <= |leftovers|
        invariant DisposeAll(before, list, packing, WriteOff, leftovers[..k]) == Ok(View())
      {
        DisposesOneMore(before, list, packing, WriteOff, leftovers, k, View());
        WriteOffOne(list, packing, leftovers[k]);
        k := k + 1;
      }
      assert leftovers[..k] == leftovers;
    }

    /** Backorders, order by order, what incomplete orders are short of. */
    method BackorderShortages(list: nat)
      modifies `backorders
      ensures backorders == old(backorders) + BackordersFor(orderLines, list, OrdersOf(orderLines, list, |orderLines|))
    {
      var orders, k := OrdersOf(orderLines, list, |orderLines|), 0;
      ghost var added: seq<Backorder> := [];
      while k < |orders|
        invariant 0 <= k <= |orders|
        invariant added == BackordersFor(orderLines, list, orders[..k])
        invariant backorders == old(backorders) + added
      {
        assert orders[..k + 1][..k] == orders[..k];
        if !OrderComplete(orderLines, list, orders[k]) {
          var short := ShortageLines(orderLines, list, orders[k],
                                     ItemsOfOrder(orderLines, list, orders[k], |orderLines|));
          backorders, added := backorders + short, added + short;
        }
        k := k + 1;
      }
      assert orders[..k] == orders;
    }

    method Reconcile(list: nat, request: Request) returns (r: Result<bool, Error>)
      modifies `balances, `ledger, `backorders, `reconciliations, `lists
      ensures r.Err? <==> CloseWave(old(View()), list, request).Err?
      ensures View() == Committed(old(View()), CloseWave(old(View()), list, request))
    {
      if list >= |lists| { return Err(NotFound); }
      if lists[list].status == ListCompleted { return Ok(false); }
      var leftovers := LeftoverBreakdown(View(), list);
      var leftover := Total(leftovers, LEFT_OVER);
      var clean := leftover <= 0.0001 && AllComplete(orderLines, list);
      var resolution := request.resolution;
      if !clean {
        if !request.force { return Err(NotReady); }
        if !request.reasonGiven { return Err(ReasonRequired); }
        if !request.permitted { return Err(Forbidden); }
        if leftover > 0.0001 && resolution == NoResolution { return Err(ResolutionRequired); }
      } else {
        resolution := NoResolution;
      }
      if leftover > 0.0001 && (resolution == ReturnToStock || resolution == WriteOff) {
        if lists[list].packing.None? { return Err(NoPackingContext); }
        var before := balances;
        if resolution == ReturnToStock {
          var returned := ReturnLeftoverToStock(list, lists[list].packing.value, leftovers);
          if returned.Err? {
            balances := before;
            return Err(returned.error);
          }
        } else {
          WriteOffLeftover(list, lists[list].packing.value, leftovers);
        }
      }
      BackorderShortages(list);
      reconciliations := reconciliations + [Reconciliation(list, leftover, resolution, !clean)];
      lists := lists[list := lists[list].(status := ListCompleted)];
      return Ok(true);
    }
  }
}
