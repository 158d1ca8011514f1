/** What rows hold: no row reserves more than it holds, and no bench row falls below zero, as long as what a
    reconciliation disposes of is still at the bench. */
module BenchStock {
  import opened Wrappers
  import opened Sums
  import opened OutboundTables
  import opened OutboundSteps
  import opened OutboundInvariant
  import opened CounterSale
  import opened Fefo
  import opened OutboundRuns
  import opened PickKeeps
  import opened Reconcile
  import opened ReconcileKeeps
  import opened WaveRuns

  ghost predicate NonNegative(balances: seq<Balance>) { forall i :: 0 <= i < |balances| ==> 0.0 <= balances[i].actual }

  /** Every row reserves between nothing and what it holds. */
  ghost predicate Backed(balances: seq<Balance>) {
    forall i :: 0 <= i < |balances| ==> 0.0 <= balances[i].reserved <= balances[i].actual
  }

  /** Bench rows reserve nothing, and the others never more than they hold. */
  lemma BackedIff(s: State)
    requires Structure(s)
    ensures Backed(s.balances) <==> NonNegative(s.balances)
  {
    assert forall i :: 0 <= i < |s.balances| ==> RowFits(s.locations, s.balances[i]);
  }

  /** What an item's row at a place holds. */
  function Held(balances: seq<Balance>, item: Item, location: nat): real {
    match FindRow(balances, item, location)
    case Some(i) => balances[i].actual
    case None => 0.0
  }

  // Adjustments

  lemma {:induction false} FoundAlike(a: seq<Balance>, b: seq<Balance>, item: Item, location: nat)
    requires |a| == |b|
    requires forall i :: 0 <= i < |a| ==> b[i].item == a[i].item && b[i].location == a[i].location
    ensures FindRow(b, item, location) == FindRow(a, item, location)
  {
    if |a| > 0 {
      FoundAlike(a[..|a| - 1], b[..|b| - 1], item, location);
    }
  }

  lemma HeldAfterUpdate(a: seq<Balance>, k: nat, actual: real, item: Item, location: nat)
    requires k < |a|
    ensures Held(a[k := a[k].(actual := actual)], item, location)
            == if FindRow(a, item, location) == Some(k) then actual else Held(a, item, location)
  {
    FoundAlike(a, a[k := a[k].(actual := actual)], item, location);
  }

  lemma HeldAfterPush(a: seq<Balance>, row: Balance, item: Item, location: nat)
    ensures Held(a + [row], item, location)
            == if FindRow(a, item, location).None? && row.item == item && row.location == location then row.actual
               else Held(a, item, location)
  {
    assert (a + [row])[..|a|] == a;
  }

  /** An adjustment changes what one item has at one place. */
  lemma AdjustHeld(a: seq<Balance>, item: Item, location: nat, delta: real, other: Item, place: nat)
    ensures Held(Adjust(a, item, location, delta), other, place)
              == Held(a, other, place) + (if other == item && place == location then delta else 0.0)
  {
    match FindRow(a, item, location)
    case Some(k) => HeldAfterUpdate(a, k, a[k].actual + delta, other, place);
    case None => HeldAfterPush(a, Balance(item, location, None, delta, 0.0), other, place);
  }

  lemma AdjustSign(a: seq<Balance>, item: Item, location: nat, delta: real)
    requires NonNegative(a)
    ensures NonNegative(Adjust(a, item, location, delta)) <==> 0.0 <= Held(a, item, location) + delta
  {
    var b := Adjust(a, item, location, delta);
    match FindRow(a, item, location)
    case Some(k) => assert b[k].actual == a[k].actual + delta;
    case None => assert b[|a|].actual == delta;
  }

  lemma HeldSign(a: seq<Balance>, item: Item, location: nat)
    requires NonNegative(a)
    ensures 0.0 <= Held(a, item, location)
  {
  }

  // Steps that only take what is there

  lemma {:induction false} ReservingKeeps(
    balances: seq<Balance>, cands: seq<nat>, room: nat -> real, need: real, k: nat)
    requires k <= |cands| && forall i :: 0 <= i < |cands| ==> cands[i] < |balances|
    requires NonNegative(balances)
    ensures NonNegative(ReservedRows(balances, cands, room, need, k))
  {
    if k > 0 {
      ReservingKeeps(balances, cands, room, need, k - 1);
    }
  }

  /** A pick takes no more than is there from its source and adds to the bench. */
  lemma PickingKeeps(s: State, input: PickInput)
    requires NonNegative(s.balances) && ConfirmPick(s, input).Ok?
    ensures NonNegative(ConfirmPick(s, input).value.balances)
  {
    var i, q := CheckPick(s, input).value, PickQuantity(input);
    var l, packing := s.lines[i], s.lists[input.list].packing.value;
    var taken := if l.balance.Some? then ConsumeReserved(s.balances, l.balance.value, q) else s.balances;
    HeldSign(taken, l.item, packing);
    AdjustSign(taken, l.item, packing, q);
  }

  /** A pick adds its quantity to what the list's bench holds of the item, and to nothing else on any bench. */
  lemma PickFillsBench(s: State, input: PickInput, item: Item, place: nat)
    requires Structure(s) && ConfirmPick(s, input).Ok? && IsPacking(s.locations, Some(place))
    ensures var l := s.lines[CheckPick(s, input).value];
            Held(ConfirmPick(s, input).value.balances, item, place)
            == Held(s.balances, item, place)
                + (if item == l.item && Some(place) == s.lists[input.list].packing then PickQuantity(input) else 0.0)
  {
    CheckedIsPickable(s, input);
    var i, q := CheckPick(s, input).value, PickQuantity(input);
    var l, packing := s.lines[i], s.lists[input.list].packing.value;
    var taken := ConsumeReserved(s.balances, l.balance.value, q);
    FoundAlike(s.balances, taken, item, place);
    AdjustHeld(taken, l.item, packing, q, item, place);
  }

  lemma {:induction false} ShippingItemsKeeps(
    k: Stock, rows: seq<BoxItem>, box: nat, list: nat, packing: nat, items: seq<Item>)
    requires NonNegative(k.balances) && ShipItems(k, rows, box, list, packing, items).Ok?
    ensures NonNegative(ShipItems(k, rows, box, list, packing, items).value.balances)
  {
    if |items| > 0 {
      ShippingItemsKeeps(k, rows, box, list, packing, items[..|items| - 1]);
    }
  }

  lemma ShippingKeeps(s: State, box: nat)
    requires NonNegative(s.balances) && ShipBox(s, box).Ok?
    ensures NonNegative(ShipBox(s, box).value.balances)
  {
    if !s.boxes[box].shipped {
      var list := s.boxes[box].list.value;
      var packing := if s.boxes[box].packing.Some? then s.boxes[box].packing else s.lists[list].packing;
      ShippingItemsKeeps(Stock(s.balances, s.lines, s.ledger), s.boxItems, box, list, packing.value,
                         ItemsInBox(s.boxItems, box));
    }
  }

  lemma LoadingKeeps(s: State, box: nat)
    requires NonNegative(s.balances)
    ensures MarkLoaded(s, box).Ok? ==> NonNegative(MarkLoaded(s, box).value.balances)
    ensures LoadBox(s, box).Ok? ==> NonNegative(LoadBox(s, box).value.balances)
  {
    if ShipBox(s, box).Ok? {
      ShippingKeeps(s, box);
    }
  }

  /** No operation but a reconciliation takes a row below zero. */
  lemma OthersKeep(s: State, step: Step)
    requires NonNegative(s.balances) && !Reconciles(s, step)
    ensures NonNegative(Next(s, step).balances)
  {
    if Apply(s, step).Ok? {
      match step
      case DoAllocate(list, item, need, _) =>
        var cands := CandidatesFor(s, list, item);
        ReservingKeeps(s.balances, cands, AvailableAt(s.balances), need, |cands|);
      case DoPick(input) => PickingKeeps(s, input);
      case DoShip(box) => ShippingKeeps(s, box);
      case DoMark(box) => LoadingKeeps(s, box);
      case DoLoad(box) => LoadingKeeps(s, box);
      case DoCompleteSale(list) =>
        SaleIs(s, list);
        ShippingKeeps(Boxed(s, list), |s.boxes|);
      case _ =>
    }
  }

  // Disposing of leftover

  predicate Moves(resolution: Resolution) { resolution == ReturnToStock || resolution == WriteOff }

  /** What goes from one place to another lowers what its item has at the first, and nothing else there. */
  lemma MovedHeld(
    a: seq<Balance>, m: seq<Balance>, b: seq<Balance>, item: Item, from: nat, to: nat, q: real, other: Item)
    requires m == Adjust(a, item, from, -q) && b == Adjust(m, item, to, q) && from != to
    ensures Held(b, other, from) == Held(a, other, from) - (if other == item then q else 0.0)
  {
    AdjustHeld(a, item, from, -q, other, from);
    AdjustHeld(m, item, to, q, other, from);
  }

  lemma MovedKeeps(a: seq<Balance>, m: seq<Balance>, b: seq<Balance>, item: Item, from: nat, to: nat, q: real)
    requires m == Adjust(a, item, from, -q) && b == Adjust(m, item, to, q) && 0.0 <= q <= Held(a, item, from)
    requires NonNegative(a)
    ensures NonNegative(b)
  {
    AdjustSign(a, item, from, -q);
    HeldSign(m, item, to);
    AdjustSign(m, item, to, q);
  }

  /** Disposing of a leftover lowers what its item has at the bench, and nothing else there. */
  lemma DisposeOneHeld(s: State, list: nat, packing: nat, resolution: Resolution, l: Leftover, t: State, item: Item)
    requires list < |s.lists| && IsPacking(s.locations, Some(packing)) && Moves(resolution)
    requires DisposeOne(s, list, packing, resolution, l) == Ok(t)
    ensures Held(t.balances, item, packing) == Held(s.balances, item, packing) - QuantityOf(item)(l)
  {
    if resolution == ReturnToStock {
      ReturnedIs(s, list, packing, l, t);
      var place := PutBack(s, l.item, s.lists[list].warehouse).value;
      MovedHeld(s.balances, Adjusted(s, l.item, packing, -l.quantity).balances, t.balances, l.item, packing, place,
                l.quantity, item);
    } else {
      AdjustHeld(s.balances, l.item, packing, -l.quantity, item, packing);
    }
  }

  lemma DisposeOneKeeps(s: State, list: nat, packing: nat, resolution: Resolution, l: Leftover, t: State)
    requires list < |s.lists| && Moves(resolution) && 0.0 <= l.quantity && NonNegative(s.balances)
    requires DisposeOne(s, list, packing, resolution, l) == Ok(t) && l.quantity <= Held(s.balances, l.item, packing)
    ensures NonNegative(t.balances)
  {
    if resolution == ReturnToStock {
      ReturnedIs(s, list, packing, l, t);
      var place := PutBack(s, l.item, s.lists[list].warehouse).value;
      MovedKeeps(s.balances, Adjusted(s, l.item, packing, -l.quantity).balances, t.balances, l.item, packing, place,
                 l.quantity);
    } else {
      AdjustSign(s.balances, l.item, packing, -l.quantity);
    }
  }

  lemma {:induction false} DisposalHeld(
    s: State, list: nat, packing: nat, resolution: Resolution, leftovers: seq<Leftover>, t: State, item: Item)
    requires list < |s.lists| && IsPacking(s.locations, Some(packing)) && Moves(resolution)
    requires DisposeAll(s, list, packing, resolution, leftovers) == Ok(t)
    ensures Held(t.balances, item, packing) == Held(s.balances, item, packing) - Total(leftovers, QuantityOf(item))
  {
    if |leftovers| > 0 {
      var n := |leftovers| - 1;
      var m := DisposeAll(s, list, packing, resolution, leftovers[..n]).value;
      DisposalHeld(s, list, packing, resolution, leftovers[..n], m, item);
      DisposeOneHeld(m, list, packing, resolution, leftovers[n], t, item);
      SumSame(leftovers, QuantityOf(item), leftovers[..n], QuantityOf(item), n);
    }
  }

  ghost predicate HoldsAll(balances: seq<Balance>, leftovers: seq<Leftover>, packing: nat) {
    forall item: Item :: Total(leftovers, QuantityOf(item)) <= Held(balances, item, packing)
  }

  lemma HoldsFewer(balances: seq<Balance>, leftovers: seq<Leftover>, packing: nat)
    requires |leftovers| > 0 && (forall k :: 0 <= k < |leftovers| ==> 0.0 <= leftovers[k].quantity)
    requires HoldsAll(balances, leftovers, packing)
    ensures HoldsAll(balances, leftovers[..|leftovers| - 1], packing)
  {
    var n := |leftovers| - 1;
    forall item: Item ensures Total(leftovers[..n], QuantityOf(item)) <= Held(balances, item, packing) {
      SumSame(leftovers, QuantityOf(item), leftovers[..n], QuantityOf(item), n);
    }
  }

  lemma {:induction false} DisposalKeeps(
    s: State, list: nat, packing: nat, resolution: Resolution, leftovers: seq<Leftover>, t: State)
    requires list < |s.lists| && IsPacking(s.locations, Some(packing)) && Moves(resolution)
    requires forall k :: 0 <= k < |leftovers| ==> 0.0 <= leftovers[k].quantity
    requires DisposeAll(s, list, packing, resolution, leftovers) == Ok(t)
    requires NonNegative(s.balances) && HoldsAll(s.balances, leftovers, packing)
    ensures NonNegative(t.balances)
  {
    if |leftovers| > 0 {
      var n := |leftovers| - 1;
      var m, l := DisposeAll(s, list, packing, resolution, leftovers[..n]).value, leftovers[n];
      HoldsFewer(s.balances, leftovers, packing);
      DisposalKeeps(s, list, packing, resolution, leftovers[..n], m);
      DisposalHeld(s, list, packing, resolution, leftovers[..n], m, l.item);
      SumSame(leftovers, QuantityOf(l.item), leftovers[..n], QuantityOf(l.item), n);
      assert Total(leftovers, QuantityOf(l.item)) <= Held(s.balances, l.item, packing);
      DisposeOneKeeps(m, list, packing, resolution, l, t);
    }
  }

  lemma DisposalSign(s: State, list: nat, packing: nat, resolution: Resolution, leftovers: seq<Leftover>, t: State)
    requires list < |s.lists| && IsPacking(s.locations, Some(packing)) && Moves(resolution)
    requires forall k :: 0 <= k < |leftovers| ==> 0.0 <= leftovers[k].quantity
    requires DisposeAll(s, list, packing, resolution, leftovers) == Ok(t) && NonNegative(s.balances)
    ensures NonNegative(t.balances) <==> HoldsAll(s.balances, leftovers, packing)
  {
    if NonNegative(t.balances) {
      forall item: Item ensures Total(leftovers, QuantityOf(item)) <= Held(s.balances, item, packing) {
        DisposalHeld(s, list, packing, resolution, leftovers, t, item);
        HeldSign(t.balances, item, packing);
      }
    } else if HoldsAll(s.balances, leftovers, packing) {
      DisposalKeeps(s, list, packing, resolution, leftovers, t);
    }
  }

  /** What a list's bench holds of an item. */
  function AtBench(s: State, list: nat, item: Item): real
    requires list < |s.lists|
  {
    if s.lists[list].packing.Some? then Held(s.balances, item, s.lists[list].packing.value) else 0.0
  }

  /** The reconciliation disposes of nothing, or of no more of any item than its row at the list's bench holds. */
  ghost predicate DisposesHeld(s: State, list: nat, request: Request)
    requires list < |s.lists|
  {
    Moves(request.resolution) ==> forall item: Item :: Disposable(s, list, item) <= AtBench(s, list, item)
  }

  lemma HoldsAllIff(s: State, list: nat)
    requires list < |s.lists| && s.lists[list].packing.Some?
    ensures HoldsAll(s.balances, LeftoverBreakdown(s, list), s.lists[list].packing.value)
            <==> forall item: Item :: Disposable(s, list, item) <= AtBench(s, list, item)
  {
    forall item: Item
      ensures Total(LeftoverBreakdown(s, list), QuantityOf(item)) == Disposable(s, list, item)
    {
      BreakdownOf(s, list, item);
    }
  }

  lemma NothingToDispose(s: State, list: nat, item: Item)
    requires list < |s.lists| && NonNegative(s.balances) && Total(LeftoverBreakdown(s, list), LEFT_OVER) <= 0.0001
    ensures Disposable(s, list, item) <= AtBench(s, list, item)
  {
    if Disposable(s, list, item) > 0.0 {
      BreakdownNonEmpty(s, list, item);
    }
    if s.lists[list].packing.Some? {
      HeldSign(s.balances, item, s.lists[list].packing.value);
    }
  }

  /** A reconciliation leaves every row at or above zero if and only if it disposes of nothing, or of no more of
      any item than its row at the list's bench holds. What was left over is worked out from the pick lines:
      nobody looks at what is still there. */
  lemma ReconcileSignIff(s: State, list: nat, request: Request)
    requires Structure(s) && NonNegative(s.balances)
    requires CloseWave(s, list, request).Ok? && s.lists[list].status != ListCompleted
    ensures NonNegative(CloseWave(s, list, request).value.balances) <==> DisposesHeld(s, list, request)
  {
    var leftovers, r := LeftoverBreakdown(s, list), CloseWave(s, list, request).value;
    if Total(leftovers, LEFT_OVER) <= 0.0001 {
      forall item: Item ensures Disposable(s, list, item) <= AtBench(s, list, item) {
        NothingToDispose(s, list, item);
      }
    } else if Moves(request.resolution) {
      var t := s.(balances := r.balances, ledger := r.ledger);
      assert IsPacking(s.locations, s.lists[list].packing);
      HoldsAllIff(s, list);
      DisposalSign(s, list, s.lists[list].packing.value, request.resolution, leftovers, t);
    }
  }

  ghost predicate StepHolds(s: State, step: Step) {
    Reconciles(s, step) ==> DisposesHeld(s, step.list, step.request)
  }

  lemma NextSignIff(s: State, step: Step)
    requires Structure(s) && NonNegative(s.balances)
    ensures NonNegative(Next(s, step).balances) <==> StepHolds(s, step)
  {
    if Reconciles(s, step) {
      ReconcileSignIff(s, step.list, step.request);
    } else {
      OthersKeep(s, step);
    }
  }

  // Whole runs

  /** Every reconciliation of the run finds at the bench what it disposes of. */
  ghost predicate AlwaysHeld(s0: State, steps: seq<Step>) {
    |steps| == 0
    || (AlwaysHeld(s0, steps[..|steps| - 1]) && StepHolds(Run(s0, steps[..|steps| - 1]), steps[|steps| - 1]))
  }

  lemma {:induction false} RunHolds(s0: State, steps: seq<Step>)
    requires Initial(s0) && AlwaysHeld(s0, steps)
    ensures Backed(Run(s0, steps).balances)
  {
    RunKeeps(s0, steps);
    BackedIff(Run(s0, steps));
    if |steps| > 0 {
      var head := steps[..|steps| - 1];
      RunHolds(s0, head);
      RunKeeps(s0, head);
      BackedIff(Run(s0, head));
      NextSignIff(Run(s0, head), steps[|steps| - 1]);
    }
  }

  ghost predicate BackedThroughout(s0: State, steps: seq<Step>) {
    forall n :: 0 <= n <= |steps| ==> Backed(Run(s0, steps[..n]).balances)
  }

  lemma BackedBefore(s0: State, steps: seq<Step>)
    requires |steps| > 0 && BackedThroughout(s0, steps)
    ensures BackedThroughout(s0, steps[..|steps| - 1]) && Backed(Run(s0, steps[..|steps| - 1]).balances)
    ensures Backed(Run(s0, steps).balances)
  {
    var head := steps[..|steps| - 1];
    forall n | 0 <= n <= |head| ensures Backed(Run(s0, head[..n]).balances) {
      assert head[..n] == steps[..n];
    }
    assert steps[..|steps|] == steps;
  }

  lemma {:induction false} BackedNeeds(s0: State, steps: seq<Step>)
    requires Initial(s0) && BackedThroughout(s0, steps)
    ensures AlwaysHeld(s0, steps)
  {
    if |steps| > 0 {
      var head := steps[..|steps| - 1];
      BackedBefore(s0, steps);
      BackedNeeds(s0, head);
      RunKeeps(s0, head);
      RunKeeps(s0, steps);
      BackedIff(Run(s0, head));
      BackedIff(Run(s0, steps));
      NextSignIff(Run(s0, head), steps[|steps| - 1]);
    }
  }

  lemma {:induction false} AlwaysHeldBefore(s0: State, steps: seq<Step>, n: nat)
    requires n <= |steps| && AlwaysHeld(s0, steps)
    ensures AlwaysHeld(s0, steps[..n])
  {
    if n < |steps| {
      AlwaysHeldBefore(s0, steps[..|steps| - 1], n);
      assert steps[..|steps| - 1][..n] == steps[..n];
    } else {
      assert steps[..n] == steps;
    }
  }

  /** In every state of a run each row reserves between nothing and what it holds, if and only if each
      reconciliation of the run disposes of nothing, or of no more of any item than the bench holds. */
  lemma RunBackedIff(s0: State, steps: seq<Step>)
    requires Initial(s0)
    ensures BackedThroughout(s0, steps) <==> AlwaysHeld(s0, steps)
  {
    if BackedThroughout(s0, steps) {
      BackedNeeds(s0, steps);
    } else if AlwaysHeld(s0, steps) {
      forall n | 0 <= n <= |steps| ensures Backed(Run(s0, steps[..n]).balances) {
        AlwaysHeldBefore(s0, steps, n);
        RunHolds(s0, steps[..n]);
      }
    }
  }

  lemma DrawnLines(s: State, b: nat)
    requires Structure(s)
    ensures forall i :: 0 <= i < |s.lines| && s.lines[i].balance == Some(b) ==>
              s.lines[i].status != Shortage && b < |s.balances| && s.lines[i].item == s.balances[b].item
  {
    forall i | 0 <= i < |s.lines| && s.lines[i].balance == Some(b)
      ensures s.lines[i].status != Shortage && b < |s.balances| && s.lines[i].item == s.balances[b].item
    {
    }
  }

  /** In any reachable state a storage row reserves between zero and what it holds, and between what
      its lines still have to pick with and without netting over-picks; exactly that when no line of
      the item is over-picked. Packing rows reserve nothing, and hold no less than that when every reconciliation
      so far found at the bench what it disposed of. Shortage lines draw on no row. */
  lemma RunReserves(s0: State, steps: seq<Step>, b: nat)
    requires Initial(s0) && b < |Run(s0, steps).balances|
    ensures var t := Run(s0, steps);
            var row := t.balances[b];
            && 0.0 <= row.reserved
            && (if AtPacking(t.locations, row) then row.reserved == 0.0 else row.reserved <= row.actual)
            && (AlwaysHeld(s0, steps) ==> row.reserved <= row.actual)
            && Total(t.lines, OpenOn(b)) <= row.reserved <= Total(t.lines, PositiveOpenOn(b))
            && (NeverOverPicked(t, row.item) ==> row.reserved == Total(t.lines, OpenOn(b)))
            && (forall i :: 0 <= i < |t.lines| && t.lines[i].balance == Some(b) ==> t.lines[i].status != Shortage)
  {
    RunKeeps(s0, steps);
    var t := Run(s0, steps);
    assert RowFits(t.locations, t.balances[b]) && ReservedAt(t, b);
    DrawnLines(t, b);
    if AlwaysHeld(s0, steps) {
      RunHolds(s0, steps);
    }
    if NeverOverPicked(t, t.balances[b].item) {
      ReservedIsExact(t, b);
    }
  }
}
