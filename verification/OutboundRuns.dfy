/** Runs of the outbound engine: any sequence of operations in any order, refused ones included. */
module OutboundRuns {
  import opened Wrappers
  import opened Sums
  import opened OutboundTables
  import opened OutboundSteps
  import opened OutboundInvariant
  import opened PackKeeps
  import opened ReconcileKeeps
  import Fefo
  import AllocateKeeps
  import CounterSale
  import PickKeeps
  import ShipKeeps
  import Reconcile

  datatype Step =
    | DoOpenList(fulfilment: Fulfilment, warehouse: nat, packing: nat)
    | DoOpenBox(forList: Option<nat>, forOrder: Option<nat>)
    | DoAddOrderLine(list: nat, order: nat, item: Item, required: real)
    | DoAllocate(list: nat, item: Item, need: real, shortageRow: bool)
    | DoPick(input: PickInput)
    | DoAssign(box: nat, list: nat, item: Item, quantity: real)
    | DoConsolidate(list: nat, order: nat, box: nat, item: Item, quantity: real)
    | DoReverse(box: nat, item: Item, quantity: real)
    | DoShip(box: nat)
    | DoMark(box: nat)
    | DoLoad(box: nat)
    | DoReconcile(list: nat, request: Reconcile.Request)
    | DoCompleteSale(list: nat)

  function Apply(s: State, step: Step): Outcome {
    match step
    case DoOpenList(fulfilment, warehouse, packing) => OpenList(s, fulfilment, warehouse, packing)
    case DoOpenBox(list, order) => OpenBox(s, list, order)
    case DoAddOrderLine(list, order, item, required) => AddOrderLine(s, list, order, item, required)
    case DoAllocate(list, item, need, shortageRow) =>
      if list < |s.lists| then Ok(Fefo.Allocate(s, list, item, need, shortageRow)) else Err(NotFound)
    case DoPick(input) => ConfirmPick(s, input)
    case DoAssign(box, list, item, q) => AssignToBox(s, box, list, item, q)
    case DoConsolidate(list, order, box, item, q) => Consolidate(s, list, order, box, item, q)
    case DoReverse(box, item, q) => ReverseItem(s, box, item, q)
    case DoShip(box) => ShipBox(s, box)
    case DoMark(box) => MarkLoaded(s, box)
    case DoLoad(box) => LoadBox(s, box)
    case DoReconcile(list, request) => Reconcile.CloseWave(s, list, request)
    case DoCompleteSale(list) => CounterSale.CompleteSale(s, list)
  }

  function Next(s: State, step: Step): State { Committed(s, Apply(s, step)) }

  function Run(s: State, steps: seq<Step>): State {
    if |steps| == 0 then s else Next(Run(s, steps[..|steps| - 1]), steps[|steps| - 1])
  }

  lemma OpenListKeeps(s0: State, s: State, fulfilment: Fulfilment, warehouse: nat, packing: nat)
    requires Inv(s0, s) && OpenList(s, fulfilment, warehouse, packing).Ok?
    ensures Inv(s0, OpenList(s, fulfilment, warehouse, packing).value)
  {
    var t := OpenList(s, fulfilment, warehouse, packing).value;
    ShipKeeps.ListFlagsKeep(s0, s, t.lists);
  }

  lemma LinkBoxKeeps(s0: State, s: State, box: nat, list: nat, order: nat)
    requires Inv(s0, s)
    ensures Inv(s0, LinkBox(s, box, list, order))
  {
    if box < |s.boxes| {
      var t := LinkBox(s, box, list, order);
      BoxesKeep(s0, s, t.boxes);
    }
  }

  /** Consolidation is linking, then assignment, then a note on the order line. */
  lemma ConsolidateKeeps(s0: State, s: State, list: nat, order: nat, box: nat, item: Item, q: real)
    requires Inv(s0, s) && Consolidate(s, list, order, box, item, q).Ok?
    ensures Inv(s0, Consolidate(s, list, order, box, item, q).value)
  {
    var r := Consolidate(s, list, order, box, item, q).value;
    var m := LinkBox(s, box, list, order);
    LinkBoxKeeps(s0, s, box, list, order);
    AssignKeeps(s0, m, box, list, item, q);
    var t := AssignToBox(m, box, list, item, q).value;
    LogsKeep(s0, t, t.backorders, t.reconciliations, r.orderLines);
  }

  lemma NextKeeps(s0: State, s: State, step: Step)
    requires Inv(s0, s)
    ensures Inv(s0, Next(s, step))
  {
    if Apply(s, step).Ok? {
      match step
      case DoOpenList(fulfilment, warehouse, packing) => OpenListKeeps(s0, s, fulfilment, warehouse, packing);
      case DoOpenBox(list, order) => OpenBoxKeeps(s0, s, list, order);
      case DoAddOrderLine(list, order, item, required) =>
        LogsKeep(s0, s, s.backorders, s.reconciliations, s.orderLines + [OrderLine(list, order, item, required, 0.0)]);
        assert Next(s, step) == s.(backorders := s.backorders, reconciliations := s.reconciliations,
                                   orderLines := s.orderLines + [OrderLine(list, order, item, required, 0.0)]);
      case DoAllocate(list, item, need, shortageRow) => AllocateKeeps.AllocateKeeps(s0, s, list, item, need,
              shortageRow);
      case DoPick(input) => PickKeeps.PickKeeps(s0, s, input);
      case DoAssign(box, list, item, q) => AssignKeeps(s0, s, box, list, item, q);
      case DoConsolidate(list, order, box, item, q) => ConsolidateKeeps(s0, s, list, order, box, item, q);
      case DoReverse(box, item, q) => ReverseKeeps(s0, s, box, item, q);
      case DoShip(box) => ShipKeeps.ShipKeeps(s0, s, box);
      case DoMark(box) => ShipKeeps.LoadingKeeps(s0, s, box);
      case DoLoad(box) => ShipKeeps.LoadingKeeps(s0, s, box);
      case DoReconcile(list, request) => ReconcileKeeps.ReconcileKeeps(s0, s, list, request);
      case DoCompleteSale(list) => CounterSale.CompleteSaleKeeps(s0, s, list);
    }
  }

  /** Every reachable state satisfies every clause of the invariant. */
  lemma {:induction false} RunKeeps(s0: State, steps: seq<Step>)
    requires Initial(s0)
    ensures Inv(s0, Run(s0, steps))
  {
    if |steps| == 0 {
      InitialIsOk(s0);
    } else {
      RunKeeps(s0, steps[..|steps| - 1]);
      NextKeeps(s0, Run(s0, steps[..|steps| - 1]), steps[|steps| - 1]);
    }
  }

  // What that means for stock, reservations, packing and shipping

  ghost predicate NeverOverPicked(s: State, item: Item) {
    forall i :: 0 <= i < |s.lines| && s.lines[i].item == item ==> s.lines[i].picked <= s.lines[i].alloc
  }

  /** Over any run, stock on hand plus what the ledger has let go exceeds the opening stock by no more
      than the absolute tolerance once per shipped box and item, plus what was picked beyond its
      allocation; without over-picks the second part vanishes. Nothing is ever lost. A row below zero counts
      as it stands; `BenchStock` says when there is none. */
  lemma RunConserves(s0: State, steps: seq<Step>, item: Item)
    requires Initial(s0)
    ensures var t := Run(s0, steps);
            var shipments := Total(t.ledger, ShipmentsOf(item));
            && 0.0 <= DriftOf(s0, t, item) <= shipments * 0.0001 + Total(t.lines, OverPickedOf(item))
            && Total(t.lines, OverPickedOf(item)) <= Total(t.lines, AllocatedOf(item)) * 0.0001
            && (NeverOverPicked(t, item) ==> DriftOf(s0, t, item) <= shipments * 0.0001)
  {
    RunKeeps(s0, steps);
    var t := Run(s0, steps);
    assert DriftAt(s0, t, item);
    UnbackedIsOverPick(t, item);
    if NeverOverPicked(t, item) {
      TotalZero(t.lines, OverPickedOf(item), |t.lines|);
    }
  }

  /** In any reachable state, on every list and item, packed quantities stay within picked ones line by
      line, and boxes hold what is packed plus at most a ten-thousandth of what is picked. */
  lemma RunPacks(s0: State, steps: seq<Step>, list: nat, item: Item)
    requires Initial(s0)
    ensures var t := Run(s0, steps);
            var packed, picked := Total(t.lines, PackedOf(list, item)), Total(t.lines, PickedOf(list, item));
            && (forall i :: 0 <= i < |t.lines| ==> 0.0 <= t.lines[i].packed <= t.lines[i].picked)
            && packed <= Total(t.boxItems, BoxedOf(t.boxes, list, item)) <= packed + picked * 0.0001
            && Total(t.boxItems, BoxedOf(t.boxes, list, item)) <= picked * 1.0001
  {
    RunKeeps(s0, steps);
    var t := Run(s0, steps);
    assert PackedAt(t, list, item);
    PackedWithinPicked(t, list, item);
  }

  /** In any reachable state, whichever way boxes were loaded: a box and item has at most one shipment
      in the ledger; consumed stays within picked line by line; and what a list shipped exceeds what
      its lines consumed by at most a ten-thousandth of what was picked, plus what was reversed out of
      boxes already gone. */
  lemma RunShips(s0: State, steps: seq<Step>, list: nat, item: Item)
    requires Initial(s0)
    ensures var t := Run(s0, steps);
            var shipped, consumed := Total(t.ledger, ShippedOf(t.boxes, list, item)),
                Total(t.lines, ConsumedOf(list, item));
            && ShippedOnce(t)
            && (forall i :: 0 <= i < |t.lines| ==> 0.0 <= t.lines[i].consumed <= t.lines[i].picked)
            && 0.0 <= shipped - consumed
                 <= Total(t.lines, PickedOf(list, item)) * 0.0001
                     + Total(t.reversals, LateReversedOf(t.boxes, list, item))
  {
    RunKeeps(s0, steps);
    var t := Run(s0, steps);
    assert ShippedAt(t, list, item);
  }
}
