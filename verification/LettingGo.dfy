/** What a list lets go of, shipped or written off, against what was picked for it. */
module LettingGo {
  import opened Wrappers
  import opened Sums
  import opened OutboundTables
  import opened OutboundSteps
  import opened OutboundEffects
  import opened OutboundInvariant
  import opened CounterSale
  import opened Fefo
  import opened PackKeeps
  import opened Postings
  import opened OutboundRuns
  import opened Reconcile
  import opened ReconcileKeeps
  import opened WaveRuns

  /** Written off for a list. */
  function WriteOffsOf(list: nat, item: Item): LedgerEntry -> real {
    (e: LedgerEntry) => if e.voucher == WaveWriteOff(list) && e.item == item then -e.quantity else 0.0
  }

  function Picked(s: State, list: nat, item: Item): real { Total(s.lines, PickedOf(list, item)) }

  function InBoxes(s: State, list: nat, item: Item): real { Total(s.boxItems, BoxedOf(s.boxes, list, item)) }

  /** Reversed out of boxes that had left. */
  function ReversedLate(s: State, list: nat, item: Item): real {
    Total(s.reversals, LateReversedOf(s.boxes, list, item))
  }

  function WrittenOffFor(s: State, list: nat, item: Item): real { Total(s.ledger, WriteOffsOf(list, item)) }

  /** Shipped and written off together. */
  function LetGo(s: State, list: nat, item: Item): real {
    Total(s.ledger, ShippedOf(s.boxes, list, item)) + WrittenOffFor(s, list, item)
  }

  ghost predicate WithinPicked(s: State, list: nat, item: Item) {
    LetGo(s, list, item) <= Picked(s, list, item) * 1.0001
  }

  predicate Loads(step: Step) { step.DoShip? || step.DoMark? || step.DoLoad? }

  /** What a step writes off of an item of a list. */
  function WritesOff(s: State, step: Step, list: nat, item: Item): real {
    if Reconciles(s, step) && step.list == list && step.request.resolution == WriteOff then Disposable(s, list, item)
    else 0.0
  }

  /** What a step ships of an item of a list. */
  function Ships(s: State, step: Step, list: nat, item: Item): real {
    if Apply(s, step).Err? then 0.0
    else if Loads(step) && !s.boxes[step.box].shipped && s.boxes[step.box].list == Some(list)
    then Total(s.boxItems, InBox(step.box, item))
    else if step.DoCompleteSale? && step.list == list then Picked(s, list, item)
    else 0.0
  }

  // The ledger, entry by entry

  /** A measure that sees the shipments of one item out of the box, or none, grows by what the box holds of it. */
  lemma {:induction false} ShipItemsMeasure(
    k: Stock, rows: seq<BoxItem>, box: nat, list: nat, packing: nat, items: seq<Item>, f: LedgerEntry -> real,
    seen: bool, item: Item)
    requires ShipItems(k, rows, box, list, packing, items).Ok?
    requires forall i, j :: 0 <= i < j < |items| ==> items[i] != items[j]
    requires forall i, q :: f(LedgerEntry(i, q, SalesShip(box))) == if seen && i == item then -q else 0.0
    ensures Total(ShipItems(k, rows, box, list, packing, items).value.ledger, f)
            == Total(k.ledger, f) + (if seen && item in items then Max(Total(rows, InBox(box, item)), 0.0) else 0.0)
  {
    if |items| > 0 {
      var n := |items| - 1;
      ShipItemsMeasure(k, rows, box, list, packing, items[..n], f, seen, item);
      var t := ShipItems(k, rows, box, list, packing, items[..n]).value;
      TotalPush(t.ledger, LedgerEntry(items[n], -Total(rows, InBox(box, items[n])), SalesShip(box)), f);
    }
  }

  lemma ShipBoxMeasure(s: State, box: nat, f: LedgerEntry -> real, seen: bool, item: Item)
    requires BoxItemsFit(s.boxes, s.boxItems) && ShipBox(s, box).Ok? && !s.boxes[box].shipped
    requires forall i, q :: f(LedgerEntry(i, q, SalesShip(box))) == if seen && i == item then -q else 0.0
    ensures Total(ShipBox(s, box).value.ledger, f)
            == Total(s.ledger, f) + (if seen then Total(s.boxItems, InBox(box, item)) else 0.0)
  {
    var list := s.boxes[box].list.value;
    var packing := if s.boxes[box].packing.Some? then s.boxes[box].packing else s.lists[list].packing;
    ShipItemsMeasure(Stock(s.balances, s.lines, s.ledger), s.boxItems, box, list, packing.value,
                     ItemsInBox(s.boxItems, box), f, seen, item);
    InBoxTotals(s, box, item);
  }

  lemma DisposeOneMeasure(
    s: State, list: nat, packing: nat, resolution: Resolution, l: Leftover, t: State, f: LedgerEntry -> real,
    seen: bool, item: Item)
    requires list < |s.lists| && DisposeOne(s, list, packing, resolution, l) == Ok(t)
    requires forall i, q :: f(LedgerEntry(i, q, WaveWriteOff(list))) == if seen && i == item then -q else 0.0
    ensures Total(t.ledger, f)
            == Total(s.ledger, f) + (if seen && resolution == WriteOff then QuantityOf(item)(l) else 0.0)
  {
    if resolution == WriteOff {
      TotalPush(s.ledger, LedgerEntry(l.item, -l.quantity, WaveWriteOff(list)), f);
    }
  }

  lemma {:induction false} DisposalMeasure(
    s: State, list: nat, packing: nat, resolution: Resolution, leftovers: seq<Leftover>, t: State,
    f: LedgerEntry -> real, seen: bool, item: Item)
    requires list < |s.lists| && DisposeAll(s, list, packing, resolution, leftovers) == Ok(t)
    requires forall i, q :: f(LedgerEntry(i, q, WaveWriteOff(list))) == if seen && i == item then -q else 0.0
    ensures Total(t.ledger, f) == Total(s.ledger, f)
            + (if seen && resolution == WriteOff then Total(leftovers, QuantityOf(item)) else 0.0)
  {
    if |leftovers| > 0 {
      var n := |leftovers| - 1;
      var m := DisposeAll(s, list, packing, resolution, leftovers[..n]).value;
      DisposalMeasure(s, list, packing, resolution, leftovers[..n], m, f, seen, item);
      DisposeOneMeasure(m, list, packing, resolution, leftovers[n], t, f, seen, item);
      SumSame(leftovers, QuantityOf(item), leftovers[..n], QuantityOf(item), n);
    }
  }

  lemma CloseMeasure(s: State, list: nat, request: Request, f: LedgerEntry -> real, seen: bool, item: Item)
    requires CloseWave(s, list, request).Ok? && s.lists[list].status != ListCompleted
    requires forall i, q :: f(LedgerEntry(i, q, WaveWriteOff(list))) == if seen && i == item then -q else 0.0
    ensures Total(CloseWave(s, list, request).value.ledger, f) == Total(s.ledger, f)
            + (if seen && request.resolution == WriteOff then Disposable(s, list, item) else 0.0)
  {
    var leftovers, r := LeftoverBreakdown(s, list), CloseWave(s, list, request).value;
    BreakdownOf(s, list, item);
    if Disposable(s, list, item) > 0.0 {
      BreakdownNonEmpty(s, list, item);
    }
    if Total(leftovers, LEFT_OVER) > 0.0001 && (request.resolution == ReturnToStock || request.resolution == WriteOff) {
      var t := s.(balances := r.balances, ledger := r.ledger);
      DisposalMeasure(s, list, s.lists[list].packing.value, request.resolution, leftovers, t, f, seen, item);
    }
  }

  // What was picked

  ghost predicate SamePicked(a: seq<Line>, b: seq<Line>) {
    |a| == |b| && forall i :: 0 <= i < |a| ==>
      b[i].list == a[i].list && b[i].item == a[i].item && b[i].picked == a[i].picked
  }

  lemma {:induction false} ShipItemsKeepPicked(
    k: Stock, rows: seq<BoxItem>, box: nat, list: nat, packing: nat, items: seq<Item>)
    requires ShipItems(k, rows, box, list, packing, items).Ok?
    ensures SamePicked(k.lines, ShipItems(k, rows, box, list, packing, items).value.lines)
  {
    if |items| > 0 {
      ShipItemsKeepPicked(k, rows, box, list, packing, items[..|items| - 1]);
    }
  }

  lemma ShipBoxKeepsPicked(s: State, box: nat)
    requires ShipBox(s, box).Ok?
    ensures SamePicked(s.lines, ShipBox(s, box).value.lines)
  {
    if !s.boxes[box].shipped {
      var list := s.boxes[box].list.value;
      var packing := if s.boxes[box].packing.Some? then s.boxes[box].packing else s.lists[list].packing;
      ShipItemsKeepPicked(Stock(s.balances, s.lines, s.ledger), s.boxItems, box, list, packing.value,
                          ItemsInBox(s.boxItems, box));
    }
  }

  lemma {:induction false} AssignPickedKeepsPicked(s: State, box: nat, list: nat, items: seq<Item>)
    requires AssignPicked(s, box, list, items).Ok?
    ensures SamePicked(s.lines, AssignPicked(s, box, list, items).value.lines)
  {
    if |items| > 0 {
      AssignPickedKeepsPicked(s, box, list, items[..|items| - 1]);
    }
  }

  lemma SaleKeepsPicked(s: State, list: nat)
    requires CompleteSale(s, list).Ok?
    ensures SamePicked(s.lines, CompleteSale(s, list).value.lines)
  {
    SaleIs(s, list);
    AssignPickedKeepsPicked(OpenBox(s, Some(list), None).value, |s.boxes|, list, ItemsOnList(s.lines, list, |s.lines|));
    ShipBoxKeepsPicked(CounterSale.Boxed(s, list), |s.boxes|);
  }

  lemma LoadingKeepsPicked(s: State, step: Step)
    requires Loads(step)
    ensures SamePicked(s.lines, Next(s, step).lines)
  {
    if ShipBox(s, step.box).Ok? {
      ShipBoxKeepsPicked(s, step.box);
    }
  }

  lemma HandlingKeepsPicked(s: State, step: Step)
    requires step.DoAssign? || step.DoConsolidate? || step.DoReverse?
    ensures SamePicked(s.lines, Next(s, step).lines)
  {
  }

  lemma StepKeepsPicked(s: State, step: Step)
    requires !step.DoPick? && !step.DoAllocate?
    ensures SamePicked(s.lines, Next(s, step).lines)
  {
    if Loads(step) {
      LoadingKeepsPicked(s, step);
    } else if step.DoCompleteSale? {
      if Apply(s, step).Ok? {
        SaleKeepsPicked(s, step.list);
      }
    } else if step.DoAssign? || step.DoConsolidate? || step.DoReverse? {
      HandlingKeepsPicked(s, step);
    }
  }

  lemma {:induction false} SlicesUnpicked(s: State, list: nat, cands: seq<nat>, need: real, k: nat)
    requires k <= |cands| && forall i :: 0 <= i < |cands| ==> cands[i] < |s.balances|
    ensures forall i :: 0 <= i < |SliceLines(s, list, cands, need, k)| ==>
              SliceLines(s, list, cands, need, k)[i].picked == 0.0
  {
    if k > 0 {
      SlicesUnpicked(s, list, cands, need, k - 1);
    }
  }

  lemma AllocatingKeepsPicked(s: State, list: nat, need: real, shortageRow: bool, item: Item, l: nat, i: Item)
    requires list < |s.lists|
    ensures Picked(Allocate(s, list, item, need, shortageRow), l, i) == Picked(s, l, i)
  {
    if need > 0.0 {
      var cands, more := CandidatesFor(s, list, item), NewLines(s, list, item, need, shortageRow);
      SlicesUnpicked(s, list, cands, need, |cands|);
      TotalAppend(s.lines, more, PickedOf(l, i));
      TotalZero(more, PickedOf(l, i), |more|);
    }
  }

  /** Picked quantities never fall, and only a pick raises them. */
  lemma PickedGrows(s: State, step: Step, l: nat, i: Item)
    ensures Picked(s, l, i) <= Picked(Next(s, step), l, i)
    ensures !step.DoPick? ==> Picked(Next(s, step), l, i) == Picked(s, l, i)
  {
    var t := Next(s, step);
    if step.DoAllocate? {
      if Apply(s, step).Ok? {
        AllocatingKeepsPicked(s, step.list, step.need, step.shortageRow, step.item, l, i);
      }
    } else if step.DoPick? {
      if Apply(s, step).Ok? {
        var k := CheckPick(s, step.input).value;
        TotalUpdate(s.lines, k, t.lines[k], PickedOf(l, i));
      }
    } else {
      StepKeepsPicked(s, step);
      TotalSame(t.lines, PickedOf(l, i), s.lines, PickedOf(l, i));
    }
  }

  // What a step lets go

  lemma LinksKeepShipped(s: State, boxes: seq<Box>, l: nat, i: Item)
    requires ShippedOnce(s) && SameLinks(s.boxes, boxes)
    ensures Total(s.ledger, ShippedOf(boxes, l, i)) == Total(s.ledger, ShippedOf(s.boxes, l, i))
  {
    TotalSame(s.ledger, ShippedOf(boxes, l, i), s.ledger, ShippedOf(s.boxes, l, i));
  }

  /** Only the links of boxes matter to what their list shipped. */
  lemma AlikeShipped(ledger: seq<LedgerEntry>, a: seq<Box>, b: seq<Box>, l: nat, i: Item)
    requires |a| == |b| && forall k :: 0 <= k < |a| ==> b[k].list == a[k].list
    ensures Total(ledger, ShippedOf(b, l, i)) == Total(ledger, ShippedOf(a, l, i))
  {
    TotalSame(ledger, ShippedOf(b, l, i), ledger, ShippedOf(a, l, i));
  }

  lemma ShippingLetsGo(s: State, box: nat, l: nat, i: Item)
    requires BoxItemsFit(s.boxes, s.boxItems) && ShipBox(s, box).Ok? && !s.boxes[box].shipped
    ensures var t := ShipBox(s, box).value;
            && Total(t.ledger, ShippedOf(t.boxes, l, i)) == Total(s.ledger, ShippedOf(s.boxes, l, i))
                 + (if s.boxes[box].list == Some(l) then Total(s.boxItems, InBox(box, i)) else 0.0)
            && WrittenOffFor(t, l, i) == WrittenOffFor(s, l, i)
  {
    var t := ShipBox(s, box).value;
    ShippedBoxes(s, box);
    ShipBoxMeasure(s, box, ShippedOf(s.boxes, l, i), s.boxes[box].list == Some(l), i);
    ShipBoxMeasure(s, box, WriteOffsOf(l, i), false, i);
    AlikeShipped(t.ledger, s.boxes, t.boxes, l, i);
  }

  /** However a box is loaded: it is shipped, or only its flags change. */
  lemma LoadedIs(s: State, step: Step)
    requires Loads(step) && Apply(s, step).Ok?
    ensures var t := Next(s, step);
            && |t.boxes| == |s.boxes| && (forall b :: 0 <= b < |s.boxes| ==> t.boxes[b].list == s.boxes[b].list)
            && (if !s.boxes[step.box].shipped && s.boxes[step.box].list.Some?
                then ShipBox(s, step.box).Ok? && t.ledger == ShipBox(s, step.box).value.ledger
                else t.ledger == s.ledger)
  {
  }

  lemma LoadingLetsGo(s: State, step: Step, l: nat, i: Item)
    requires Structure(s) && ShippedOnce(s) && Loads(step) && Apply(s, step).Ok?
    ensures var t := Next(s, step);
            && Total(t.ledger, ShippedOf(t.boxes, l, i))
                == Total(s.ledger, ShippedOf(s.boxes, l, i)) + Ships(s, step, l, i)
            && WrittenOffFor(t, l, i) == WrittenOffFor(s, l, i)
  {
    var t := Next(s, step);
    LoadedIs(s, step);
    AlikeShipped(t.ledger, s.boxes, t.boxes, l, i);
    if !s.boxes[step.box].shipped && s.boxes[step.box].list.Some? {
      var m := ShipBox(s, step.box).value;
      ShippingLetsGo(s, step.box, l, i);
      ShippedBoxes(s, step.box);
      AlikeShipped(t.ledger, s.boxes, m.boxes, l, i);
    }
  }

  lemma SaleLetsGo(s0: State, s: State, list: nat, l: nat, i: Item)
    requires Inv(s0, s) && CompleteSale(s, list).Ok?
    ensures var t := CompleteSale(s, list).value;
            && Total(t.ledger, ShippedOf(t.boxes, l, i)) == Total(s.ledger, ShippedOf(s.boxes, l, i))
                 + (if list == l then Picked(s, l, i) else 0.0)
            && WrittenOffFor(t, l, i) == WrittenOffFor(s, l, i)
  {
    var m := CounterSale.Boxed(s, list);
    SaleIs(s, list);
    BoxedHoldsPicked(s0, s, list, i);
    ShippingLetsGo(m, |s.boxes|, l, i);
    LinksKeepShipped(s, m.boxes, l, i);
  }

  lemma ClosingLetsGo(s: State, step: Step, l: nat, i: Item)
    requires Reconciles(s, step)
    ensures var t := Next(s, step);
            && Total(t.ledger, ShippedOf(t.boxes, l, i)) == Total(s.ledger, ShippedOf(s.boxes, l, i))
            && WrittenOffFor(t, l, i) == WrittenOffFor(s, l, i) + WritesOff(s, step, l, i)
  {
    CloseMeasure(s, step.list, step.request, ShippedOf(s.boxes, l, i), false, i);
    CloseMeasure(s, step.list, step.request, WriteOffsOf(l, i), step.list == l, i);
  }

  /** Steps that post nothing. */
  lemma PostsNothing(s: State, step: Step)
    requires !Loads(step) && !step.DoCompleteSale? && !Reconciles(s, step)
    ensures Next(s, step).ledger == s.ledger && SameLinks(s.boxes, Next(s, step).boxes)
  {
  }

  /** What every step ships and writes off, to the unit. */
  lemma StepLetsGo(s0: State, s: State, step: Step, l: nat, i: Item)
    requires Inv(s0, s)
    ensures var t := Next(s, step);
            && Total(t.ledger, ShippedOf(t.boxes, l, i))
                == Total(s.ledger, ShippedOf(s.boxes, l, i)) + Ships(s, step, l, i)
            && WrittenOffFor(t, l, i) == WrittenOffFor(s, l, i) + WritesOff(s, step, l, i)
  {
    if Apply(s, step).Ok? {
      if Loads(step) {
        LoadingLetsGo(s, step, l, i);
      } else if step.DoCompleteSale? {
        SaleLetsGo(s0, s, step.list, l, i);
      } else if Reconciles(s, step) {
        ClosingLetsGo(s, step, l, i);
      } else {
        PostsNothing(s, step);
        LinksKeepShipped(s, Next(s, step).boxes, l, i);
      }
    }
  }

  /** A step keeps what a list lets go of an item within what was picked of it if and only if what it ships and
      writes off, a box's content, a sale's picked total or a wave's leftover, is no more than was picked and
      not let go before. */
  lemma WithinPickedIff(s0: State, s: State, step: Step, l: nat, i: Item)
    requires Inv(s0, s) && WithinPicked(s, l, i)
    ensures WithinPicked(Next(s, step), l, i) <==>
            Ships(s, step, l, i) + WritesOff(s, step, l, i) <= Picked(s, l, i) * 1.0001 - LetGo(s, l, i)
  {
    StepLetsGo(s0, s, step, l, i);
    PickedGrows(s, step, l, i);
  }

  // Runs in which nothing is let go twice

  predicate PacksFor(step: Step, list: nat) {
    (step.DoAssign? || step.DoConsolidate? || step.DoCompleteSale?) && step.list == list
  }

  predicate ReversesLate(s: State, step: Step, list: nat) {
    step.DoReverse? && step.box < |s.boxes| && s.boxes[step.box].shipped && s.boxes[step.box].list == Some(list)
  }

  predicate HasWriteOff(s: State, list: nat) {
    exists k :: 0 <= k < |s.reconciliations| && s.reconciliations[k].list == list
        && s.reconciliations[k].resolution == WriteOff
  }

  /** Nothing is packed for the list once its leftover was written off, nor reversed out of its boxes that left. */
  ghost predicate Orderly(s0: State, steps: seq<Step>, list: nat) {
    |steps| == 0
    || (var head, last := steps[..|steps| - 1], steps[|steps| - 1];
        && Orderly(s0, head, list)
        && !(PacksFor(last, list) && HasWriteOff(Run(s0, head), list))
        && !ReversesLate(Run(s0, head), last, list))
  }

  ghost predicate NoneLate(s: State, list: nat) {
    forall k :: 0 <= k < |s.reversals| && s.reversals[k].late ==> BoxList(s.boxes, s.reversals[k].box) != Some(list)
  }

  lemma SaleNoneLate(s: State, list: nat, l: nat)
    requires Structure(s) && NoneLate(s, l) && CompleteSale(s, list).Ok?
    ensures NoneLate(CompleteSale(s, list).value, l)
  {
    SaleIs(s, list);
    ShippedBoxes(CounterSale.Boxed(s, list), |s.boxes|);
  }

  lemma ReversalNoneLate(s: State, box: nat, item: Item, q: real, l: nat)
    requires NoneLate(s, l) && ReverseItem(s, box, item, q).Ok? && !ReversesLate(s, DoReverse(box, item, q), l)
    ensures NoneLate(ReverseItem(s, box, item, q).value, l)
  {
  }

  /** Only reversals are logged as such. */
  lemma NoReversal(s: State, step: Step)
    requires !step.DoReverse? && !step.DoCompleteSale?
    ensures Next(s, step).reversals == s.reversals && SameLinks(s.boxes, Next(s, step).boxes)
  {
    if Quiet(step) {
      QuietStep(s, step);
    }
  }

  lemma NextNoneLate(s: State, step: Step, list: nat)
    requires Structure(s) && NoneLate(s, list) && !ReversesLate(s, step, list)
    ensures NoneLate(Next(s, step), list)
  {
    if step.DoReverse? {
      if Apply(s, step).Ok? {
        ReversalNoneLate(s, step.box, step.item, step.quantity, list);
      }
    } else if step.DoCompleteSale? {
      if Apply(s, step).Ok? {
        SaleNoneLate(s, step.list, list);
      }
    } else {
      NoReversal(s, step);
      assert ReversalsFit(s.boxes, s.reversals);
    }
  }

  lemma ConsolidationBoxesElsewhere(
    s: State, list: nat, order: nat, box: nat, item: Item, q: real, l: nat, i: Item)
    requires Structure(s) && Consolidate(s, list, order, box, item, q).Ok? && l != list
    ensures InBoxes(Consolidate(s, list, order, box, item, q).value, l, i) == InBoxes(s, l, i)
  {
    var boxes := LinkBox(s, box, list, order).boxes;
    TotalPush(s.boxItems, BoxItem(box, item, q), BoxedOf(boxes, l, i));
    TotalSame(s.boxItems, BoxedOf(boxes, l, i), s.boxItems, BoxedOf(s.boxes, l, i));
  }

  lemma SaleBoxesElsewhere(s: State, list: nat, l: nat, i: Item)
    requires Structure(s) && CompleteSale(s, list).Ok? && l != list
    ensures InBoxes(CompleteSale(s, list).value, l, i) == InBoxes(s, l, i)
  {
    var m, t, box := CounterSale.Boxed(s, list), CompleteSale(s, list).value, |s.boxes|;
    SaleIs(s, list);
    ShippedBoxes(m, box);
    AssignPickedElsewhere(s.(boxes := m.boxes), box, list, ItemsOnList(s.lines, list, |s.lines|),
                          BoxedOf(m.boxes, l, i));
    TotalSame(s.boxItems, BoxedOf(m.boxes, l, i), s.boxItems, BoxedOf(s.boxes, l, i));
    TotalSame(t.boxItems, BoxedOf(t.boxes, l, i), m.boxItems, BoxedOf(m.boxes, l, i));
  }

  /** A step that does not pack for a list puts nothing into its boxes. */
  lemma BoxedFalls(s: State, step: Step, l: nat, i: Item)
    requires Structure(s) && !PacksFor(step, l)
    ensures InBoxes(Next(s, step), l, i) <= InBoxes(s, l, i)
  {
    var t := Next(s, step);
    if Quiet(step) {
      QuietStep(s, step);
      TotalSame(s.boxItems, BoxedOf(t.boxes, l, i), s.boxItems, BoxedOf(s.boxes, l, i));
    } else if Apply(s, step).Ok? {
      match step
      case DoAddOrderLine(_, _, _, _) =>
      case DoAssign(box, list, item, q) => TotalPush(s.boxItems, BoxItem(box, item, q), BoxedOf(s.boxes, l, i));
      case DoConsolidate(list, order, box, item, q) => ConsolidationBoxesElsewhere(s, list, order, box, item, q, l, i);
      case DoReverse(box, item, q) =>
        var k := LastInBox(s.boxItems, box, item).value;
        TotalUpdate(s.boxItems, k, t.boxItems[k], BoxedOf(s.boxes, l, i));
      case DoCompleteSale(list) => SaleBoxesElsewhere(s, list, l, i);
    }
  }

  /** What is boxed and what was written off are different stock. */
  ghost predicate Apart(s: State, l: nat, i: Item) {
    && NoneLate(s, l)
    && (!HasWriteOff(s, l) ==> WrittenOffFor(s, l, i) == 0.0)
    && InBoxes(s, l, i) + WrittenOffFor(s, l, i) <= Picked(s, l, i) * 1.0001
  }

  lemma BoxedWithinPicked(s: State, l: nat, i: Item)
    requires Structure(s) && Packings(s)
    ensures InBoxes(s, l, i) + Disposable(s, l, i) <= Picked(s, l, i) * 1.0001
  {
    assert PackedAt(s, l, i);
    PackRoomTotal(s.lines, l, i);
    PackedWithinPicked(s, l, i);
  }

  /** Closing the wave writes off what is in no box. */
  lemma ClosingKeepsApart(s: State, step: Step, l: nat, i: Item)
    requires Structure(s) && Packings(s) && Apart(s, l, i) && !HasWriteOff(s, l) && Reconciles(s, step)
    ensures Apart(Next(s, step), l, i)
  {
    ClosingLetsGo(s, step, l, i);
    BoxedWithinPicked(s, l, i);
    ReconciliationsGrow(s, step);
    if Disposable(s, l, i) > 0.0 {
      BreakdownNonEmpty(s, l, i);
    }
  }

  lemma WriteOffsStay(s: State, step: Step, l: nat)
    ensures HasWriteOff(s, l) ==> HasWriteOff(Next(s, step), l)
    ensures !Reconciles(s, step) || step.list != l ==> (HasWriteOff(Next(s, step), l) <==> HasWriteOff(s, l))
  {
    ReconciliationsGrow(s, step);
    if HasWriteOff(s, l) {
      var k :| 0 <= k < |s.reconciliations| && s.reconciliations[k].list == l
               && s.reconciliations[k].resolution == WriteOff;
      assert Next(s, step).reconciliations[k] == s.reconciliations[k];
    }
  }

  lemma NextKeepsApart(s0: State, s: State, step: Step, l: nat, i: Item)
    requires Inv(s0, s) && Closed(s) && Apart(s, l, i)
    requires !(PacksFor(step, l) && HasWriteOff(s, l)) && !ReversesLate(s, step, l)
    ensures Apart(Next(s, step), l, i)
  {
    var t := Next(s, step);
    if Reconciles(s, step) && !HasWriteOff(s, l) {
      ClosingKeepsApart(s, step, l, i);
    } else {
      NextNoneLate(s, step, l);
      WriteOffsStay(s, step, l);
      StepLetsGo(s0, s, step, l, i);
      PickedGrows(s, step, l, i);
      if HasWriteOff(s, l) {
        BoxedFalls(s, step, l, i);
      } else {
        NextKeeps(s0, s, step);
        BoxedWithinPicked(t, l, i);
      }
    }
  }

  lemma ApartIsWithin(s: State, l: nat, i: Item)
    requires Structure(s) && Shipments(s) && Apart(s, l, i)
    ensures WithinPicked(s, l, i)
  {
    assert ShippedAt(s, l, i);
    TotalZero(s.reversals, LateReversedOf(s.boxes, l, i), |s.reversals|);
    TotalLe(s.boxItems, InShippedBoxes(s.boxes, l, i), s.boxItems, BoxedOf(s.boxes, l, i));
  }

  lemma {:induction false} RunKeepsApart(s0: State, steps: seq<Step>, l: nat, i: Item)
    requires Initial(s0) && Orderly(s0, steps, l)
    ensures Apart(Run(s0, steps), l, i)
  {
    if |steps| > 0 {
      var head, last := steps[..|steps| - 1], steps[|steps| - 1];
      RunKeepsApart(s0, head, l, i);
      RunKeeps(s0, head);
      DisposedOnce(s0, head, l);
      NextKeepsApart(s0, Run(s0, head), last, l, i);
    }
  }

  /** Over any run in which nothing is packed for a list after its leftover was written off, and nothing reversed
      out of a box of it that has left: what it shipped and what was written off for it stay, of every item,
      within what was picked, up to a ten-thousandth. The engine enforces neither. */
  lemma RunLetsGoOnce(s0: State, steps: seq<Step>, l: nat, i: Item)
    requires Initial(s0) && Orderly(s0, steps, l)
    ensures WithinPicked(Run(s0, steps), l, i)
  {
    RunKeeps(s0, steps);
    RunKeepsApart(s0, steps, l, i);
    ApartIsWithin(Run(s0, steps), l, i);
  }

  // The guard that is missing

  /** What is in boxes, was reversed out of boxes that had left, or was written off: none of it is there to pack. */
  function Claimed(s: State, list: nat, item: Item): real {
    InBoxes(s, list, item) + ReversedLate(s, list, item) + WrittenOffFor(s, list, item)
  }

  ghost predicate ClaimsFit(s: State, list: nat, item: Item) {
    Claimed(s, list, item) <= Picked(s, list, item) * 1.0001
  }

  /** What a step packs of an item of a list. */
  function Packs(s: State, step: Step, list: nat, item: Item): real {
    if Apply(s, step).Err? || !PacksFor(step, list) then 0.0
    else if step.DoCompleteSale? then Picked(s, list, item)
    else if step.item == item then step.quantity
    else 0.0
  }

  lemma SalePacks(s0: State, s: State, list: nat, i: Item)
    requires Inv(s0, s) && CompleteSale(s, list).Ok?
    ensures InBoxes(CompleteSale(s, list).value, list, i) == InBoxes(s, list, i) + Picked(s, list, i)
  {
    var m, t, box := CounterSale.Boxed(s, list), CompleteSale(s, list).value, |s.boxes|;
    SaleIs(s, list);
    ShippedBoxes(m, box);
    BoxedHoldsPicked(s0, s, list, i);
    AssignPickedElsewhere(s.(boxes := m.boxes), box, list, ItemsOnList(s.lines, list, |s.lines|),
                          BoxedOf(s.boxes, list, i));
    TotalAdd(m.boxItems, BoxedOf(s.boxes, list, i), m.boxItems, InBox(box, i), m.boxItems, BoxedOf(m.boxes, list, i));
    TotalSame(t.boxItems, BoxedOf(t.boxes, list, i), m.boxItems, BoxedOf(m.boxes, list, i));
  }

  lemma AssignmentPacks(s: State, box: nat, list: nat, item: Item, q: real, i: Item)
    requires AssignToBox(s, box, list, item, q).Ok?
    ensures InBoxes(AssignToBox(s, box, list, item, q).value, list, i)
            == InBoxes(s, list, i) + (if item == i then q else 0.0)
  {
    TotalPush(s.boxItems, BoxItem(box, item, q), BoxedOf(s.boxes, list, i));
  }

  lemma ConsolidationPacks(s: State, list: nat, order: nat, box: nat, item: Item, q: real, i: Item)
    requires Structure(s) && Consolidate(s, list, order, box, item, q).Ok?
    ensures InBoxes(Consolidate(s, list, order, box, item, q).value, list, i)
            == InBoxes(s, list, i) + (if item == i then q else 0.0)
  {
    var m := LinkBox(s, box, list, order);
    AssignmentPacks(m, box, list, item, q, i);
    TotalSame(s.boxItems, BoxedOf(m.boxes, list, i), s.boxItems, BoxedOf(s.boxes, list, i));
  }

  lemma StepPacks(s0: State, s: State, step: Step, l: nat, i: Item)
    requires Inv(s0, s) && PacksFor(step, l)
    ensures InBoxes(Next(s, step), l, i) == InBoxes(s, l, i) + Packs(s, step, l, i)
  {
    if Apply(s, step).Ok? {
      match step
      case DoAssign(box, list, item, q) => AssignmentPacks(s, box, list, item, q, i);
      case DoConsolidate(list, order, box, item, q) => ConsolidationPacks(s, list, order, box, item, q, i);
      case DoCompleteSale(list) => SalePacks(s0, s, list, i);
    }
  }

  /** Taking goods out of a box that has left moves them from what is boxed to what was reversed late. */
  lemma ReversingClaims(s: State, box: nat, item: Item, q: real, l: nat, i: Item)
    requires ReverseItem(s, box, item, q).Ok?
    ensures var t := ReverseItem(s, box, item, q).value;
            InBoxes(t, l, i) + ReversedLate(t, l, i) <= InBoxes(s, l, i) + ReversedLate(s, l, i)
  {
    var t, k := ReverseItem(s, box, item, q).value, LastInBox(s.boxItems, box, item).value;
    TotalUpdate(s.boxItems, k, t.boxItems[k], BoxedOf(s.boxes, l, i));
    TotalPush(s.reversals, Reversal(box, item, q, s.boxes[box].shipped), LateReversedOf(s.boxes, l, i));
  }

  lemma SaleReversesNothing(s: State, list: nat)
    requires CompleteSale(s, list).Ok?
    ensures CompleteSale(s, list).value.reversals == s.reversals
    ensures SameLinks(s.boxes, CompleteSale(s, list).value.boxes)
  {
    SaleIs(s, list);
    ShippedBoxes(CounterSale.Boxed(s, list), |s.boxes|);
  }

  lemma LateStays(s: State, step: Step, l: nat, i: Item)
    requires Structure(s) && !step.DoReverse?
    ensures ReversedLate(Next(s, step), l, i) == ReversedLate(s, l, i)
  {
    var t := Next(s, step);
    if step.DoCompleteSale? {
      if Apply(s, step).Ok? {
        SaleReversesNothing(s, step.list);
      }
    } else {
      NoReversal(s, step);
    }
    assert ReversalsFit(s.boxes, s.reversals);
    TotalSame(t.reversals, LateReversedOf(t.boxes, l, i), s.reversals, LateReversedOf(s.boxes, l, i));
  }

  lemma ClosingBoxesNothing(s: State, step: Step, l: nat, i: Item)
    requires Reconciles(s, step)
    ensures InBoxes(Next(s, step), l, i) == InBoxes(s, l, i)
  {
  }

  lemma ClaimsMove(s0: State, s: State, step: Step, l: nat, i: Item)
    requires Inv(s0, s)
    ensures var more := Packs(s, step, l, i) + WritesOff(s, step, l, i);
            && Claimed(Next(s, step), l, i) <= Claimed(s, l, i) + more
            && (PacksFor(step, l) || Reconciles(s, step) ==> Claimed(Next(s, step), l, i) == Claimed(s, l, i) + more)
  {
    StepLetsGo(s0, s, step, l, i);
    if step.DoReverse? {
      if Apply(s, step).Ok? {
        ReversingClaims(s, step.box, step.item, step.quantity, l, i);
      }
    } else {
      LateStays(s, step, l, i);
      if PacksFor(step, l) {
        StepPacks(s0, s, step, l, i);
      } else if Reconciles(s, step) {
        ClosingBoxesNothing(s, step, l, i);
      } else {
        BoxedFalls(s, step, l, i);
      }
    }
  }

  /** The ceiling an assignment is checked against, with what was reversed late and written off counted as well as
      what is boxed, and a write-off checked against it too. */
  ghost predicate StepFits(s: State, step: Step, l: nat, i: Item) {
    Claimed(s, l, i) + Packs(s, step, l, i) + WritesOff(s, step, l, i) <= Picked(s, l, i) * 1.0001
  }

  /** A step keeps boxed, reversed late and written off together within what was picked if and only if what it packs
      or writes off fits under that ceiling. */
  lemma ClaimsFitIff(s0: State, s: State, step: Step, l: nat, i: Item)
    requires Inv(s0, s) && ClaimsFit(s, l, i)
    ensures ClaimsFit(Next(s, step), l, i) <==> StepFits(s, step, l, i)
  {
    ClaimsMove(s0, s, step, l, i);
    PickedGrows(s, step, l, i);
  }

  /** What was shipped came out of boxes, or was taken out of them again after they had left. */
  lemma ClaimsCover(s: State, l: nat, i: Item)
    requires Structure(s) && Shipments(s)
    ensures LetGo(s, l, i) <= Claimed(s, l, i)
  {
    assert ShippedAt(s, l, i);
    TotalLe(s.boxItems, InShippedBoxes(s.boxes, l, i), s.boxItems, BoxedOf(s.boxes, l, i));
  }

  /** Every packing and every write-off of the run passes the ceiling that counts all three. */
  ghost predicate AlwaysFits(s0: State, steps: seq<Step>, l: nat, i: Item) {
    |steps| == 0
    || (AlwaysFits(s0, steps[..|steps| - 1], l, i) && StepFits(Run(s0, steps[..|steps| - 1]), steps[|steps| - 1], l, i))
  }

  lemma NothingClaimed(s: State, l: nat, i: Item)
    requires Initial(s)
    ensures ClaimsFit(s, l, i)
  {
  }

  lemma {:induction false} RunFits(s0: State, steps: seq<Step>, l: nat, i: Item)
    requires Initial(s0) && AlwaysFits(s0, steps, l, i)
    ensures ClaimsFit(Run(s0, steps), l, i)
  {
    if |steps| == 0 {
      NothingClaimed(s0, l, i);
    } else {
      var head := steps[..|steps| - 1];
      RunFits(s0, head, l, i);
      RunKeeps(s0, head);
      ClaimsFitIff(s0, Run(s0, head), steps[|steps| - 1], l, i);
    }
  }

  /** With that ceiling, what a list ships and what is written off for it stay within what was picked over every run,
      in whatever order its boxes are packed, shipped and reversed and the wave is closed. */
  lemma RunStaysWithin(s0: State, steps: seq<Step>, l: nat, i: Item)
    requires Initial(s0) && AlwaysFits(s0, steps, l, i)
    ensures WithinPicked(Run(s0, steps), l, i) && LetGo(Run(s0, steps), l, i) <= Claimed(Run(s0, steps), l, i)
  {
    RunFits(s0, steps, l, i);
    RunKeeps(s0, steps);
    ClaimsCover(Run(s0, steps), l, i);
  }
}
