/** What the state of a pick line says about its quantities, over whole runs, and which state an operation
    leaves a line in. */
module LineStates {
  import opened Wrappers
  import opened Sums
  import opened OutboundTables
  import opened OutboundSteps
  import opened OutboundEffects
  import opened OutboundInvariant
  import opened CounterSale
  import opened Fefo
  import opened OutboundRuns
  import opened PackKeeps
  import opened PickKeeps
  import Greedy
  import Reconcile

  /** Nothing has been done to a pending line; a line in progress has more to pick than the tolerance forgives and
      a picked one has not; a delivered line has been sent what was ordered, up to a ten-thousandth of a unit, and a
      partly delivered one something but not that much. */
  ghost predicate StateFits(l: Line) {
    && (l.status == Pending ==> l.picked == 0.0 && l.consumed == 0.0)
    && (l.status == InProgress ==> l.picked + l.alloc * 0.0001 < l.alloc)
    && (l.status == PickedFull ==> l.alloc <= l.picked + l.alloc * 0.0001)
    && (l.status == PartlyDelivered ==> 0.0 < l.consumed && l.consumed + 0.0001 < l.ordered)
    && (l.status == Delivered ==> l.ordered <= l.consumed + 0.0001)
  }

  ghost predicate StatesFit(lines: seq<Line>) { forall i :: 0 <= i < |lines| ==> StateFits(lines[i]) }

  // Picking

  /** A pick changes one line of its list: picked rises by the quantity, and the line is picked when that brings it
      to its allocation within the tolerance, and in progress when not. */
  lemma PickSets(s: State, input: PickInput)
    requires Structure(s) && ConfirmPick(s, input).Ok?
    ensures var i, q, t := CheckPick(s, input).value, PickQuantity(input), ConfirmPick(s, input).value;
            var l := s.lines[i];
            && |t.lines| == |s.lines| && 0.0 < l.alloc
            && (forall j :: 0 <= j < |s.lines| && j != i ==> t.lines[j] == s.lines[j])
            && t.lines[i] == l.(picked := l.picked + q, status := t.lines[i].status)
            && (t.lines[i].status == PickedFull <==> l.alloc <= l.picked + q + l.alloc * 0.0001)
            && (t.lines[i].status == InProgress <==> l.picked + q + l.alloc * 0.0001 < l.alloc)
  {
    CheckedIsPickable(s, input);
  }

  // Shipping

  /** A line as shipping may leave it: as it was, or with more consumed and the state that goes with it. */
  ghost predicate SentOn(a: Line, b: Line) {
    || b == a
    || (&& b == a.(consumed := b.consumed, status := b.status) && a.consumed < b.consumed
        && (b.status == Delivered <==> b.ordered <= b.consumed + 0.0001)
        && (b.status == PartlyDelivered <==> b.consumed + 0.0001 < b.ordered))
  }

  ghost predicate AllSentOn(a: seq<Line>, b: seq<Line>) {
    |a| == |b| && forall i :: 0 <= i < |a| ==> SentOn(a[i], b[i])
  }

  lemma DeliveredIs(l: Line, take: real)
    requires 0.0 <= l.consumed
    ensures SentOn(l, Deliver(l, take))
  {
  }

  lemma SpreadSends(lines: seq<Line>, list: nat, item: Item, q: real)
    requires Consumable(lines)
    ensures AllSentOn(lines, SpreadConsumed(lines, list, item, q)) || q < 0.0
    ensures 0.0 <= q ==> Consumable(SpreadConsumed(lines, list, item, q))
  {
    var r := SpreadConsumed(lines, list, item, q);
    if 0.0 <= q {
      forall i | 0 <= i < |lines| ensures SentOn(lines[i], r[i]) && 0.0 <= r[i].consumed <= r[i].picked {
        DeliveredIs(lines[i], Greedy.Take(lines, i, ShipRoom(list, item), q));
        ConsumedRow(lines, list, item, q, i);
      }
    }
  }

  lemma SentTwice(a: seq<Line>, b: seq<Line>, c: seq<Line>)
    requires AllSentOn(a, b) && AllSentOn(b, c)
    ensures AllSentOn(a, c)
  {
    forall i | 0 <= i < |a| ensures SentOn(a[i], c[i]) {
      assert SentOn(a[i], b[i]) && SentOn(b[i], c[i]);
    }
  }

  lemma ItemSends(k: Stock, rows: seq<BoxItem>, box: nat, list: nat, packing: nat, item: Item)
    requires ShipItem(k, rows, box, list, packing, item).Ok? && Consumable(k.lines)
    ensures var r := ShipItem(k, rows, box, list, packing, item).value.lines; AllSentOn(k.lines, r) && Consumable(r)
  {
    SpreadSends(k.lines, list, item, Total(rows, InBox(box, item)));
  }

  lemma {:induction false} ItemsSend(
    k: Stock, rows: seq<BoxItem>, box: nat, list: nat, packing: nat, items: seq<Item>)
    requires ShipItems(k, rows, box, list, packing, items).Ok? && Consumable(k.lines)
    ensures var r := ShipItems(k, rows, box, list, packing, items).value.lines;
            AllSentOn(k.lines, r) && Consumable(r)
  {
    if |items| > 0 {
      var n := |items| - 1;
      ItemsSend(k, rows, box, list, packing, items[..n]);
      var t := ShipItems(k, rows, box, list, packing, items[..n]).value;
      var u := ShipItem(t, rows, box, list, packing, items[n]).value;
      ItemSends(t, rows, box, list, packing, items[n]);
      SentTwice(k.lines, t.lines, u.lines);
    }
  }

  /** Shipping a box leaves each line as it was or with more consumed, and then delivered if that is what was
      ordered, up to a ten-thousandth of a unit, and partly delivered if it is less. */
  lemma ShipMarks(s: State, box: nat)
    requires Structure(s) && ShipBox(s, box).Ok?
    ensures AllSentOn(s.lines, ShipBox(s, box).value.lines)
  {
    if !s.boxes[box].shipped {
      var list := s.boxes[box].list.value;
      var packing := if s.boxes[box].packing.Some? then s.boxes[box].packing else s.lists[list].packing;
      assert Consumable(s.lines);
      ItemsSend(Stock(s.balances, s.lines, s.ledger), s.boxItems, box, list, packing.value,
                ItemsInBox(s.boxItems, box));
    }
  }

  lemma SentFits(a: seq<Line>, b: seq<Line>)
    requires StatesFit(a) && AllSentOn(a, b) && Consumable(a)
    ensures StatesFit(b)
  {
    forall i | 0 <= i < |b| ensures StateFits(b[i]) {
      assert StateFits(a[i]) && SentOn(a[i], b[i]);
    }
  }

  // Runs

  /** Lines that differ in their packed quantity only. */
  lemma PackedFits(a: seq<Line>, b: seq<Line>)
    requires StatesFit(a) && OnlyPacked(a, b)
    ensures StatesFit(b)
  {
    forall i | 0 <= i < |b| ensures StateFits(b[i]) {
      assert StateFits(a[i]);
    }
  }

  lemma PickFits(s: State, input: PickInput)
    requires Structure(s) && StatesFit(s.lines) && ConfirmPick(s, input).Ok?
    ensures StatesFit(ConfirmPick(s, input).value.lines)
  {
    PickSets(s, input);
    assert StateFits(s.lines[CheckPick(s, input).value]);
  }

  lemma {:induction false} SlicesFit(s: State, list: nat, cands: seq<nat>, need: real, k: nat)
    requires k <= |cands| && forall i :: 0 <= i < |cands| ==> cands[i] < |s.balances|
    ensures StatesFit(SliceLines(s, list, cands, need, k))
  {
    if k > 0 {
      SlicesFit(s, list, cands, need, k - 1);
    }
  }

  lemma AllocationFits(s: State, list: nat, item: Item, need: real, shortageRow: bool)
    requires list < |s.lists| && StatesFit(s.lines)
    ensures StatesFit(Allocate(s, list, item, need, shortageRow).lines)
  {
    if need > 0.0 {
      var cands := CandidatesFor(s, list, item);
      SlicesFit(s, list, cands, need, |cands|);
      assert StatesFit(NewLines(s, list, item, need, shortageRow));
    }
  }

  lemma ShippingFits(s: State, box: nat)
    requires Structure(s) && StatesFit(s.lines) && ShipBox(s, box).Ok?
    ensures StatesFit(ShipBox(s, box).value.lines)
  {
    ShipMarks(s, box);
    SentFits(s.lines, ShipBox(s, box).value.lines);
  }

  lemma LoadingFits(s: State, step: Step)
    requires Structure(s) && StatesFit(s.lines) && (step.DoShip? || step.DoMark? || step.DoLoad?)
    ensures StatesFit(Next(s, step).lines)
  {
    if ShipBox(s, step.box).Ok? {
      ShippingFits(s, step.box);
    }
  }

  lemma BoxingPacks(s0: State, s: State, box: nat, list: nat, item: Item)
    requires Inv(s0, s) && AssignAllOf(s, box, list, item).Ok?
    ensures Inv(s0, AssignAllOf(s, box, list, item).value)
    ensures OnlyPacked(s.lines, AssignAllOf(s, box, list, item).value.lines)
  {
    AssignedAllOf(s0, s, box, list, item, item);
    var q := Total(s.lines, PickedOf(list, item));
    if q > 0.0 {
      AssignedLines(s, list, item, q);
    }
  }

  lemma PackedTwice(a: seq<Line>, b: seq<Line>, c: seq<Line>)
    requires OnlyPacked(a, b) && OnlyPacked(b, c)
    ensures OnlyPacked(a, c)
  {
  }

  lemma {:induction false} AssignPickedPacks(s0: State, s: State, box: nat, list: nat, items: seq<Item>, t: State)
    requires Inv(s0, s) && AssignPicked(s, box, list, items) == Ok(t)
    ensures Inv(s0, t) && OnlyPacked(s.lines, t.lines)
  {
    if |items| > 0 {
      var n := |items| - 1;
      var m := AssignPicked(s, box, list, items[..n]).value;
      AssignPickedPacks(s0, s, box, list, items[..n], m);
      BoxingPacks(s0, m, box, list, items[n]);
      PackedTwice(s.lines, m.lines, t.lines);
    }
  }

  lemma SaleFits(s0: State, s: State, list: nat)
    requires Inv(s0, s) && StatesFit(s.lines) && CompleteSale(s, list).Ok?
    ensures StatesFit(CompleteSale(s, list).value.lines)
  {
    var m, t := OpenBox(s, Some(list), None).value, Boxed(s, list);
    SaleIs(s, list);
    OpenBoxKeeps(s0, s, Some(list), None);
    AssignPickedPacks(s0, m, |s.boxes|, list, Reconcile.ItemsOnList(s.lines, list, |s.lines|), t);
    PackedFits(s.lines, t.lines);
    ShippingFits(t, |s.boxes|);
  }

  lemma AssigningFits(s: State, box: nat, list: nat, item: Item, q: real)
    requires Structure(s) && StatesFit(s.lines) && AssignToBox(s, box, list, item, q).Ok?
    ensures StatesFit(AssignToBox(s, box, list, item, q).value.lines)
  {
    AssignedLines(s, list, item, q);
    PackedFits(s.lines, AssignToBox(s, box, list, item, q).value.lines);
  }

  lemma ReversingFits(s: State, box: nat, item: Item, q: real)
    requires Structure(s) && StatesFit(s.lines) && ReverseItem(s, box, item, q).Ok?
    ensures StatesFit(ReverseItem(s, box, item, q).value.lines)
  {
    GivenLines(s, s.boxes[box].list.value, item, q);
    PackedFits(s.lines, ReverseItem(s, box, item, q).value.lines);
  }

  /** Steps that leave the pick lines alone. */
  lemma LinesStay(s: State, step: Step)
    requires step.DoOpenList? || step.DoOpenBox? || step.DoAddOrderLine? || step.DoReconcile?
    ensures Next(s, step).lines == s.lines
  {
  }

  lemma ConsolidatingFits(s0: State, s: State, list: nat, order: nat, box: nat, item: Item, q: real)
    requires Inv(s0, s) && StatesFit(s.lines) && Consolidate(s, list, order, box, item, q).Ok?
    ensures StatesFit(Consolidate(s, list, order, box, item, q).value.lines)
  {
    LinkBoxKeeps(s0, s, box, list, order);
    AssigningFits(LinkBox(s, box, list, order), box, list, item, q);
  }

  lemma NextFits(s0: State, s: State, step: Step)
    requires Inv(s0, s) && StatesFit(s.lines)
    ensures StatesFit(Next(s, step).lines)
  {
    if Apply(s, step).Ok? {
      match step
      case DoAllocate(list, item, need, shortageRow) => AllocationFits(s, list, item, need, shortageRow);
      case DoPick(input) => PickFits(s, input);
      case DoAssign(box, list, item, q) => AssigningFits(s, box, list, item, q);
      case DoConsolidate(list, order, box, item, q) => ConsolidatingFits(s0, s, list, order, box, item, q);
      case DoReverse(box, item, q) => ReversingFits(s, box, item, q);
      case DoShip(_) => LoadingFits(s, step);
      case DoMark(_) => LoadingFits(s, step);
      case DoLoad(_) => LoadingFits(s, step);
      case DoCompleteSale(list) => SaleFits(s0, s, list);
      case _ => LinesStay(s, step);
    }
  }

  /** In every state of every run each line's state fits its quantities. */
  lemma {:induction false} RunStates(s0: State, steps: seq<Step>)
    requires Initial(s0)
    ensures StatesFit(Run(s0, steps).lines)
  {
    if |steps| > 0 {
      var head := steps[..|steps| - 1];
      RunStates(s0, head);
      RunKeeps(s0, head);
      NextFits(s0, Run(s0, head), steps[|steps| - 1]);
    }
  }

  /** So a scan without a line id never addresses a line that is picked to its allocation: a line another scan
      has completed is passed over for the next one. */
  lemma ScanFindsUnpicked(s0: State, steps: seq<Step>, list: nat, item: Item, bin: string)
    requires Initial(s0)
    ensures var lines := Run(s0, steps).lines;
            var r := BestLine(lines, list, item, bin, |lines|);
            r.Some? ==> lines[r.value].picked + lines[r.value].alloc * 0.0001 < lines[r.value].alloc
  {
    var s := Run(s0, steps);
    RunStates(s0, steps);
    RunKeeps(s0, steps);
    var r := BestLine(s.lines, list, item, bin, |s.lines|);
    if r.Some? {
      assert StateFits(s.lines[r.value]) && LineFits(s.locations, s.balances, |s.lists|, s.lines[r.value]);
    }
  }
}
