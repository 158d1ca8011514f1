/** Waves over whole runs: what consolidation adds up to, and how often a wave's leftover is disposed of. */
module WaveRuns {
  import opened Wrappers
  import opened Sums
  import opened OutboundTables
  import opened OutboundSteps
  import opened OutboundInvariant
  import opened CounterSale
  import opened OutboundRuns
  import opened Postings
  import opened Reconcile

  // Consolidated quantity against box contents

  /** What the orders of a wave were given is what its boxes hold, plus what was reversed out of them:
      reversing lowers the box but not the order line. */
  ghost predicate WaveOn(
    boxes: seq<Box>, boxItems: seq<BoxItem>, orderLines: seq<OrderLine>, reversals: seq<Reversal>, list: nat,
    item: Item)
  {
    Total(orderLines, ConsolidatedOf(list, item))
      == Total(boxItems, BoxedOf(boxes, list, item)) + Total(reversals, ReversedOf(boxes, list, item))
  }

  ghost predicate WaveAt(s: State, list: nat, item: Item) {
    WaveOn(s.boxes, s.boxItems, s.orderLines, s.reversals, list, item)
  }

  ghost predicate OrderLineFits(w: OrderLine) { 0.0 < w.required && 0.0 <= w.consolidated <= w.required * 1.0001 }

  ghost predicate OrderLinesFit(rows: seq<OrderLine>) {
    forall i :: 0 <= i < |rows| ==> OrderLineFits(rows[i])
  }

  /** A box once linked to a list stays linked to it. */
  ghost predicate SameLinks(a: seq<Box>, b: seq<Box>) {
    |a| <= |b| && forall i :: 0 <= i < |a| && a[i].list.Some? ==> b[i].list == a[i].list
  }

  lemma LinksKeepWaveAt(s: State, boxes: seq<Box>, list: nat, item: Item)
    requires Structure(s) && SameLinks(s.boxes, boxes) && WaveAt(s, list, item)
    ensures WaveOn(boxes, s.boxItems, s.orderLines, s.reversals, list, item)
  {
    TotalSame(s.boxItems, BoxedOf(boxes, list, item), s.boxItems, BoxedOf(s.boxes, list, item));
    TotalSame(s.reversals, ReversedOf(boxes, list, item), s.reversals, ReversedOf(s.boxes, list, item));
  }

  /** Steps that write none of the tables the wave law is about, except perhaps box flags. */
  predicate Quiet(step: Step) {
    !step.DoAddOrderLine? && !step.DoAssign? && !step.DoConsolidate? && !step.DoReverse? && !step.DoCompleteSale?
  }

  lemma QuietStep(s: State, step: Step)
    requires Quiet(step)
    ensures var t := Next(s, step);
            && t.boxItems == s.boxItems && t.orderLines == s.orderLines && t.reversals == s.reversals
            && SameLinks(s.boxes, t.boxes)
  {
  }

  lemma ConsolidateKeepsWaveAt(s: State, list: nat, order: nat, box: nat, item: Item, q: real, l: nat, i: Item)
    requires Structure(s) && WaveAt(s, l, i) && Consolidate(s, list, order, box, item, q).Ok?
    ensures WaveAt(Consolidate(s, list, order, box, item, q).value, l, i)
  {
    var m, t := LinkBox(s, box, list, order), Consolidate(s, list, order, box, item, q).value;
    LinksKeepWaveAt(s, m.boxes, l, i);
    var w := FindOrderLine(s.orderLines, list, order, item).value;
    TotalUpdate(s.orderLines, w, t.orderLines[w], ConsolidatedOf(l, i));
    TotalPush(s.boxItems, BoxItem(box, item, q), BoxedOf(m.boxes, l, i));
  }

  lemma ReverseKeepsWaveAt(s: State, box: nat, item: Item, q: real, l: nat, i: Item)
    requires WaveAt(s, l, i) && ReverseItem(s, box, item, q).Ok?
    ensures WaveAt(ReverseItem(s, box, item, q).value, l, i)
  {
    var t, k := ReverseItem(s, box, item, q).value, LastInBox(s.boxItems, box, item).value;
    TotalUpdate(s.boxItems, k, t.boxItems[k], BoxedOf(s.boxes, l, i));
    TotalPush(s.reversals, Reversal(box, item, q, s.boxes[box].shipped), ReversedOf(s.boxes, l, i));
  }

  lemma AssignElsewhereKeepsWaveAt(s: State, box: nat, list: nat, item: Item, q: real, l: nat, i: Item)
    requires WaveAt(s, l, i) && AssignToBox(s, box, list, item, q).Ok? && l != list
    ensures WaveAt(AssignToBox(s, box, list, item, q).value, l, i)
  {
    TotalPush(s.boxItems, BoxItem(box, item, q), BoxedOf(s.boxes, l, i));
  }

  lemma SaleElsewhereKeepsWaveAt(s: State, list: nat, l: nat, i: Item)
    requires Structure(s) && WaveAt(s, l, i) && CompleteSale(s, list).Ok? && l != list
    ensures WaveAt(CompleteSale(s, list).value, l, i)
  {
    SaleIs(s, list);
    var m, t, box := Boxed(s, list), CompleteSale(s, list).value, |s.boxes|;
    ShippedBoxes(m, box);
    LinksKeepWaveAt(s, m.boxes, l, i);
    AssignPickedElsewhere(s.(boxes := m.boxes), box, list, ItemsOnList(s.lines, list, |s.lines|),
                          BoxedOf(m.boxes, l, i));
    TotalSame(t.boxItems, BoxedOf(t.boxes, l, i), m.boxItems, BoxedOf(m.boxes, l, i));
    TotalSame(t.reversals, ReversedOf(t.boxes, l, i), m.reversals, ReversedOf(m.boxes, l, i));
  }

  lemma NextKeepsWaveAt(s: State, step: Step, l: nat, i: Item)
    requires Structure(s) && WaveAt(s, l, i) && (step.DoAssign? || step.DoCompleteSale? ==> step.list != l)
    ensures WaveAt(Next(s, step), l, i)
  {
    if Quiet(step) {
      QuietStep(s, step);
      LinksKeepWaveAt(s, Next(s, step).boxes, l, i);
    } else if Apply(s, step).Ok? {
      match step
      case DoAddOrderLine(list, order, item, required) =>
        TotalPush(s.orderLines, OrderLine(list, order, item, required, 0.0), ConsolidatedOf(l, i));
      case DoAssign(box, list, item, q) => AssignElsewhereKeepsWaveAt(s, box, list, item, q, l, i);
      case DoConsolidate(list, order, box, item, q) => ConsolidateKeepsWaveAt(s, list, order, box, item, q, l, i);
      case DoReverse(box, item, q) => ReverseKeepsWaveAt(s, box, item, q, l, i);
      case DoCompleteSale(list) => SaleElsewhereKeepsWaveAt(s, list, l, i);
    }
  }

  lemma NextKeepsOrderLines(s: State, step: Step)
    requires OrderLinesFit(s.orderLines)
    ensures OrderLinesFit(Next(s, step).orderLines)
  {
    if Quiet(step) {
      QuietStep(s, step);
    } else if step.DoConsolidate? && Apply(s, step).Ok? {
      var w := FindOrderLine(s.orderLines, step.list, step.order, step.item).value;
    }
  }

  /** No direct packing onto the list: every unit placed goes through an order line. */
  predicate OnlyConsolidated(steps: seq<Step>, list: nat) {
    forall k :: 0 <= k < |steps| ==> ((steps[k].DoAssign? || steps[k].DoCompleteSale?) ==> steps[k].list != list)
  }

  lemma {:induction false} RunKeepsWave(s0: State, steps: seq<Step>, list: nat, item: Item)
    requires Initial(s0) && OnlyConsolidated(steps, list)
    ensures WaveAt(Run(s0, steps), list, item) && OrderLinesFit(Run(s0, steps).orderLines)
  {
    if |steps| > 0 {
      var head, last := steps[..|steps| - 1], steps[|steps| - 1];
      RunKeepsWave(s0, head, list, item);
      RunKeeps(s0, head);
      NextKeepsWaveAt(Run(s0, head), last, list, item);
      NextKeepsOrderLines(Run(s0, head), last);
    }
  }

  /** On a wave packed only through consolidation, over every interleaving of picks, placements and
      reversals: what the orders were given is what the boxes hold plus what was reversed, so it is the
      box contents exactly when nothing was; each order line stays within its requirement, and what was
      given and not reversed within what was picked, both up to one part in ten thousand. */
  lemma WaveRun(s0: State, steps: seq<Step>, list: nat, item: Item)
    requires Initial(s0) && OnlyConsolidated(steps, list)
    ensures var t := Run(s0, steps);
            var given, boxed := Total(t.orderLines, ConsolidatedOf(list, item)),
                Total(t.boxItems, BoxedOf(t.boxes, list, item));
            var reversed := Total(t.reversals, ReversedOf(t.boxes, list, item));
            && given == boxed + reversed
            && (given == boxed <==> reversed == 0.0)
            && given - reversed <= Total(t.lines, PickedOf(list, item)) * 1.0001
            && (forall k :: 0 <= k < |t.orderLines| ==>
                0.0 <= t.orderLines[k].consolidated <= t.orderLines[k].required * 1.0001)
  {
    RunKeepsWave(s0, steps, list, item);
    RunPacks(s0, steps, list, item);
    var t := Run(s0, steps);
  }

  // Closing a wave

  ghost predicate IsCompleted(s: State, list: nat) { list < |s.lists| && s.lists[list].status == ListCompleted }

  lemma LoadingLeavesCompleted(s: State, box: nat, list: nat)
    requires IsCompleted(s, list)
    ensures ShipBox(s, box).Ok? ==> IsCompleted(ShipBox(s, box).value, list)
    ensures MarkLoaded(s, box).Ok? ==> IsCompleted(MarkLoaded(s, box).value, list)
    ensures LoadBox(s, box).Ok? ==> IsCompleted(LoadBox(s, box).value, list)
  {
  }

  lemma PickLeavesCompleted(s: State, input: PickInput, list: nat)
    requires IsCompleted(s, list) && ConfirmPick(s, input).Ok?
    ensures IsCompleted(ConfirmPick(s, input).value, list)
  {
  }

  lemma CloseLeavesCompleted(s: State, wave: nat, request: Request, list: nat)
    requires IsCompleted(s, list) && CloseWave(s, wave, request).Ok?
    ensures IsCompleted(CloseWave(s, wave, request).value, list)
  {
  }

  lemma CompletedStays(s: State, step: Step, list: nat)
    requires IsCompleted(s, list)
    ensures IsCompleted(Next(s, step), list)
  {
    if step.DoPick? && Apply(s, step).Ok? {
      PickLeavesCompleted(s, step.input, list);
    } else if step.DoReconcile? && Apply(s, step).Ok? {
      CloseLeavesCompleted(s, step.list, step.request, list);
    } else if step.DoShip? || step.DoMark? || step.DoLoad? {
      LoadingLeavesCompleted(s, step.box, list);
    } else if step.DoCompleteSale? && Apply(s, step).Ok? {
      SaleIs(s, step.list);
      LoadingLeavesCompleted(Boxed(s, step.list), |s.boxes|, list);
    }
  }

  /** A wave is reconciled at most once, and only a completed list has a reconciliation. */
  ghost predicate Closed(s: State) {
    && (forall i :: 0 <= i < |s.reconciliations| ==>
          s.reconciliations[i].list < |s.lists| && s.lists[s.reconciliations[i].list].status == ListCompleted)
    && (forall i, j :: 0 <= i < j < |s.reconciliations| ==> s.reconciliations[i].list != s.reconciliations[j].list)
  }

  predicate Reconciles(s: State, step: Step) {
    step.DoReconcile? && Apply(s, step).Ok? && s.lists[step.list].status != ListCompleted
  }

  lemma ReconciliationsGrow(s: State, step: Step)
    ensures if Reconciles(s, step)
            then |Next(s, step).reconciliations| == |s.reconciliations| + 1
                 && s.reconciliations <= Next(s, step).reconciliations
                 && Next(s, step).reconciliations[|s.reconciliations|].list == step.list
                 && Next(s, step).lists[step.list].status == ListCompleted
            else Next(s, step).reconciliations == s.reconciliations
  {
  }

  lemma NextKeepsClosed(s: State, step: Step)
    requires Closed(s)
    ensures Closed(Next(s, step))
  {
    var t := Next(s, step);
    ReconciliationsGrow(s, step);
    forall i | 0 <= i < |s.reconciliations| ensures
        && t.reconciliations[i] == s.reconciliations[i]
        && s.reconciliations[i].list < |t.lists| && t.lists[s.reconciliations[i].list].status == ListCompleted
    {
      CompletedStays(s, step, s.reconciliations[i].list);
    }
  }

  // Write-offs against what reconciliations logged

  function WrittenOffOf(list: nat): LedgerEntry -> real {
    (e: LedgerEntry) => if e.voucher == WaveWriteOff(list) then e.quantity else 0.0
  }

  function LoggedOf(list: nat): Reconciliation -> real {
    (r: Reconciliation) => if r.list == list && r.resolution == WriteOff then r.leftover else 0.0
  }

  ghost predicate WrittenOffOn(ledger: seq<LedgerEntry>, reconciliations: seq<Reconciliation>, list: nat) {
    Total(ledger, WrittenOffOf(list)) == -Total(reconciliations, LoggedOf(list))
  }

  lemma {:induction false} ShipItemsWriteOffNothing(
    k: Stock, rows: seq<BoxItem>, box: nat, list: nat, packing: nat, items: seq<Item>, wave: nat)
    requires ShipItems(k, rows, box, list, packing, items).Ok?
    ensures Total(ShipItems(k, rows, box, list, packing, items).value.ledger, WrittenOffOf(wave))
            == Total(k.ledger, WrittenOffOf(wave))
  {
    if |items| > 0 {
      var n := |items| - 1;
      ShipItemsWriteOffNothing(k, rows, box, list, packing, items[..n], wave);
      var t := ShipItems(k, rows, box, list, packing, items[..n]).value;
      TotalPush(t.ledger, LedgerEntry(items[n], -Total(rows, InBox(box, items[n])), SalesShip(box)),
                WrittenOffOf(wave));
    }
  }

  lemma ShippingWritesOffNothing(s: State, box: nat, wave: nat)
    requires ShipBox(s, box).Ok?
    ensures Total(ShipBox(s, box).value.ledger, WrittenOffOf(wave)) == Total(s.ledger, WrittenOffOf(wave))
  {
    if !s.boxes[box].shipped {
      var list := s.boxes[box].list.value;
      var packing := if s.boxes[box].packing.Some? then s.boxes[box].packing else s.lists[list].packing;
      var items := ItemsInBox(s.boxItems, box);
      ShipItemsWriteOffNothing(Stock(s.balances, s.lines, s.ledger), s.boxItems, box, list, packing.value, items, wave);
    }
  }

  lemma DisposeOneLogged(s: State, list: nat, packing: nat, resolution: Resolution, l: Leftover, wave: nat)
    requires list < |s.lists| && DisposeOne(s, list, packing, resolution, l).Ok?
    ensures Total(DisposeOne(s, list, packing, resolution, l).value.ledger, WrittenOffOf(wave))
              == Total(s.ledger, WrittenOffOf(wave))
                  - (if resolution == WriteOff && wave == list then l.quantity else 0.0)
  {
    TotalPush(s.ledger, LedgerEntry(l.item, -l.quantity, WaveWriteOff(list)), WrittenOffOf(wave));
  }

  lemma {:induction false} DisposalLogged(
    s: State, list: nat, packing: nat, resolution: Resolution, leftovers: seq<Leftover>, wave: nat)
    requires list < |s.lists| && DisposeAll(s, list, packing, resolution, leftovers).Ok?
    ensures Total(DisposeAll(s, list, packing, resolution, leftovers).value.ledger, WrittenOffOf(wave))
              == Total(s.ledger, WrittenOffOf(wave))
                  - (if resolution == WriteOff && wave == list then Total(leftovers, LEFT_OVER) else 0.0)
  {
    if |leftovers| > 0 {
      var n := |leftovers| - 1;
      DisposalLogged(s, list, packing, resolution, leftovers[..n], wave);
      SumSame(leftovers, LEFT_OVER, leftovers[..n], LEFT_OVER, n);
      DisposeOneLogged(DisposeAll(s, list, packing, resolution, leftovers[..n]).value, list, packing, resolution,
                       leftovers[n], wave);
    }
  }

  lemma NothingListed(leftovers: seq<Leftover>)
    requires forall k :: 0 <= k < |leftovers| ==> leftovers[k].quantity > 0.0001
    requires Total(leftovers, LEFT_OVER) <= 0.0001
    ensures leftovers == []
  {
    if |leftovers| > 0 {
      TotalAtLeastRow(leftovers, 0, LEFT_OVER);
    }
  }

  lemma ReconcileKeepsWrittenOff(s: State, list: nat, request: Request, wave: nat)
    requires WrittenOffOn(s.ledger, s.reconciliations, wave) && CloseWave(s, list, request).Ok?
    ensures var t := CloseWave(s, list, request).value; WrittenOffOn(t.ledger, t.reconciliations, wave)
  {
    var t := CloseWave(s, list, request).value;
    if s.lists[list].status != ListCompleted {
      var leftovers := LeftoverBreakdown(s, list);
      var n := |s.reconciliations|;
      TotalPush(s.reconciliations, t.reconciliations[n], LoggedOf(wave));
      if Total(leftovers, LEFT_OVER) <= 0.0001 {
        NothingListed(leftovers);
      } else if request.resolution == WriteOff || request.resolution == ReturnToStock {
        DisposalLogged(s, list, s.lists[list].packing.value, request.resolution, leftovers, wave);
      }
    }
  }

  lemma NextKeepsWrittenOff(s: State, step: Step, wave: nat)
    requires WrittenOffOn(s.ledger, s.reconciliations, wave)
    ensures WrittenOffOn(Next(s, step).ledger, Next(s, step).reconciliations, wave)
  {
    ReconciliationsGrow(s, step);
    if step.DoShip? || step.DoMark? || step.DoLoad? {
      if ShipBox(s, step.box).Ok? {
        ShippingWritesOffNothing(s, step.box, wave);
      }
    } else if step.DoCompleteSale? {
      if Apply(s, step).Ok? {
        SaleIs(s, step.list);
        ShippingWritesOffNothing(Boxed(s, step.list), |s.boxes|, wave);
      }
    } else if step.DoReconcile? && Apply(s, step).Ok? {
      ReconcileKeepsWrittenOff(s, step.list, step.request, wave);
    }
  }

  /** Over any run a wave's leftover is disposed of at most once, and all that was ever written off for
      it is the leftover its reconciliation logged. */
  lemma {:induction false} DisposedOnce(s0: State, steps: seq<Step>, wave: nat)
    requires Initial(s0)
    ensures var t := Run(s0, steps); Closed(t) && WrittenOffOn(t.ledger, t.reconciliations, wave)
  {
    if |steps| > 0 {
      var head, last := steps[..|steps| - 1], steps[|steps| - 1];
      DisposedOnce(s0, head, wave);
      NextKeepsClosed(Run(s0, head), last);
      NextKeepsWrittenOff(Run(s0, head), last, wave);
    }
  }

  /** Nothing reconciles a list any more once it is completed, whoever completed it. */
  lemma {:induction false} CompletedIsFinal(s: State, steps: seq<Step>, list: nat)
    requires IsCompleted(s, list)
    ensures var t := Run(s, steps);
            && IsCompleted(t, list)
            && s.reconciliations <= t.reconciliations
            && forall i :: |s.reconciliations| <= i < |t.reconciliations| ==> t.reconciliations[i].list != list
  {
    if |steps| > 0 {
      var head, last := steps[..|steps| - 1], steps[|steps| - 1];
      CompletedIsFinal(s, head, list);
      CompletedStays(Run(s, head), last, list);
      ReconciliationsGrow(Run(s, head), last);
    }
  }

  ghost predicate ReconciledBy(s: State, steps: seq<Step>, list: nat) {
    var t := Run(s, steps);
    exists i :: |s.reconciliations| <= i < |t.reconciliations| && t.reconciliations[i].list == list
  }

  /** Some continuation reconciles the list. */
  ghost predicate CanBeReconciled(s: State, list: nat) {
    exists steps :: ReconciledBy(s, steps, list)
  }

  lemma {:induction false} DisposalGoesThrough(s: State, list: nat, packing: nat, leftovers: seq<Leftover>)
    requires list < |s.lists|
    ensures DisposeAll(s, list, packing, WriteOff, leftovers).Ok?
  {
    if |leftovers| > 0 {
      DisposalGoesThrough(s, list, packing, leftovers[..|leftovers| - 1]);
    }
  }

  /** A forced, reasoned and permitted write-off closes any list still open. */
  lemma WriteOffReconciles(s: State, list: nat)
    requires list < |s.lists| && s.lists[list].packing.Some? && s.lists[list].status != ListCompleted
    ensures ReconciledBy(s, [DoReconcile(list, Request(true, true, true, WriteOff))], list)
  {
    var step := DoReconcile(list, Request(true, true, true, WriteOff));
    assert [step][..0] == [];
    if !CloseWave(s, list, step.request).Ok? {
      DisposalGoesThrough(s, list, s.lists[list].packing.value, LeftoverBreakdown(s, list));
    }
    ReconciliationsGrow(s, step);
    assert Run(s, [step]) == Next(s, step);
  }

  /** A list can be reconciled, in some continuation, if and only if it is not completed. */
  lemma ReconcilableIff(s: State, list: nat)
    requires list < |s.lists| && s.lists[list].packing.Some?
    ensures CanBeReconciled(s, list) <==> s.lists[list].status != ListCompleted
  {
    if s.lists[list].status != ListCompleted {
      WriteOffReconciles(s, list);
    } else if CanBeReconciled(s, list) {
      var steps :| ReconciledBy(s, steps, list);
      CompletedIsFinal(s, steps, list);
    }
  }

  /** The pick leaves nothing to pick on its list. */
  ghost predicate PicksLast(s: State, input: PickInput)
    requires CheckPick(s, input).Ok?
  {
    forall j :: 0 <= j < |s.lines| && s.lines[j].list == input.list && s.lines[j].alloc > 0.0 ==>
      s.lines[j].alloc <= s.lines[j].picked + if j == CheckPick(s, input).value then PickQuantity(input) else 0.0
  }

  lemma NothingToPickIff(s: State, input: PickInput)
    requires ConfirmPick(s, input).Ok?
    ensures StillToPick(ConfirmPick(s, input).value.lines, input.list) <==> !PicksLast(s, input)
  {
    var t := ConfirmPick(s, input).value;
    if !PicksLast(s, input) {
      var j :| 0 <= j < |s.lines| && s.lines[j].list == input.list && s.lines[j].alloc > 0.0
               && !(s.lines[j].alloc <= s.lines[j].picked + if j == CheckPick(s, input).value then PickQuantity(input)
                    else 0.0);
      assert t.lines[j].picked < t.lines[j].alloc;
    }
  }

  /** After a pick its list can still be reconciled, in some continuation, if and only if it was open and the
      pick did not leave it with nothing to pick (unless all of it had been shipped before): otherwise the
      pick closes the list, and what is left over of it is never returned or written off. */
  lemma PickForfeitsIff(s: State, input: PickInput)
    requires ConfirmPick(s, input).Ok?
    ensures (CanBeReconciled(ConfirmPick(s, input).value, input.list))
              <==> (s.lists[input.list].status != ListCompleted
                    && (!PicksLast(s, input) || s.lists[input.list].consumed))
  {
    NothingToPickIff(s, input);
    ReconcilableIff(ConfirmPick(s, input).value, input.list);
  }
}
