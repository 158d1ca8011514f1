/** The ledger against the boxes: what was posted for a box is what is in it, as long as nobody puts
    items into a box that has left or takes them back out of it. */
module ShipBalance {
  import opened Wrappers
  import opened Sums
  import opened OutboundTables
  import opened OutboundSteps
  import opened OutboundInvariant
  import opened CounterSale
  import opened OutboundRuns
  import opened Postings
  import opened Reconcile

  ghost predicate BalancedOn(boxes: seq<Box>, boxItems: seq<BoxItem>, ledger: seq<LedgerEntry>, box: nat, item: Item) {
    Total(ledger, OutOfBox(box, item))
      == if box < |boxes| && boxes[box].shipped then Total(boxItems, InBox(box, item)) else 0.0
  }

  ghost predicate BalancedAt(s: State, box: nat, item: Item) { BalancedOn(s.boxes, s.boxItems, s.ledger, box, item) }

  ghost predicate Balanced(s: State) {
    forall box: nat, item: Item :: BalancedOn(s.boxes, s.boxItems, s.ledger, box, item)
  }

  /** The quantity of an item a step changes in a box that has already left. */
  function Disturbance(s: State, step: Step): real {
    if Apply(s, step).Err? then 0.0
    else match step
      case DoAssign(box, _, _, q) => if s.boxes[box].shipped then q else 0.0
      case DoConsolidate(_, _, box, _, q) => if s.boxes[box].shipped then q else 0.0
      case DoReverse(box, _, q) => if s.boxes[box].shipped then -q else 0.0
      case _ => 0.0
  }

  lemma ShippingBalances(s: State, box: nat, b: nat, item: Item)
    requires Structure(s) && BalancedAt(s, b, item) && ShipBox(s, box).Ok?
    ensures BalancedAt(ShipBox(s, box).value, b, item)
  {
    ShippedBoxes(s, box);
    if !s.boxes[box].shipped {
      ShipBoxPosts(s, box, b, item);
    }
  }

  lemma MarkingBalances(s: State, box: nat, b: nat, item: Item)
    requires Structure(s) && BalancedAt(s, b, item) && MarkLoaded(s, box).Ok?
    ensures BalancedAt(MarkLoaded(s, box).value, b, item)
  {
    InBoxTotals(s, b, item);
    if ShipBox(s, box).Ok? {
      ShippingBalances(s, box, b, item);
      ShippedBoxes(s, box);
    }
  }

  lemma LoadingBalances(s: State, box: nat, b: nat, item: Item)
    requires Structure(s) && BalancedAt(s, b, item) && LoadBox(s, box).Ok?
    ensures BalancedAt(LoadBox(s, box).value, b, item)
  {
    if ShipBox(s, box).Ok? {
      ShippingBalances(s, box, b, item);
      ShippedBoxes(s, box);
    }
  }

  lemma {:induction false} DisposalPostsNoShipment(
    s: State, list: nat, packing: nat, resolution: Resolution, leftovers: seq<Leftover>, b: nat, item: Item)
    requires list < |s.lists| && DisposeAll(s, list, packing, resolution, leftovers).Ok?
    ensures Total(DisposeAll(s, list, packing, resolution, leftovers).value.ledger, OutOfBox(b, item))
            == Total(s.ledger, OutOfBox(b, item))
  {
    if |leftovers| > 0 {
      var n := |leftovers| - 1;
      DisposalPostsNoShipment(s, list, packing, resolution, leftovers[..n], b, item);
      var t := DisposeAll(s, list, packing, resolution, leftovers[..n]).value;
      TotalPush(t.ledger, LedgerEntry(leftovers[n].item, -leftovers[n].quantity, WaveWriteOff(list)),
                OutOfBox(b, item));
    }
  }

  lemma ReconcilePostsNoShipment(s: State, list: nat, request: Request, b: nat, item: Item)
    requires CloseWave(s, list, request).Ok?
    ensures var t := CloseWave(s, list, request).value;
            && t.boxes == s.boxes && t.boxItems == s.boxItems
            && Total(t.ledger, OutOfBox(b, item)) == Total(s.ledger, OutOfBox(b, item))
  {
    if s.lists[list].status != ListCompleted && s.lists[list].packing.Some?
       && (request.resolution == ReturnToStock || request.resolution == WriteOff)
    {
      var leftovers, packing := LeftoverBreakdown(s, list), s.lists[list].packing.value;
      if DisposeAll(s, list, packing, request.resolution, leftovers).Ok? {
        DisposalPostsNoShipment(s, list, packing, request.resolution, leftovers, b, item);
      }
    }
  }

  /** Packing into a box, and reversing out of it, changes its contents and posts nothing. */
  lemma HandlingIn(s: State, step: Step, b: nat, item: Item)
    requires Apply(s, step).Ok? && (step.DoAssign? || step.DoConsolidate? || step.DoReverse?)
    ensures var t := Next(s, step);
            && t.ledger == s.ledger && |t.boxes| == |s.boxes|
            && (forall i :: 0 <= i < |s.boxes| ==> t.boxes[i].shipped == s.boxes[i].shipped)
            && Total(t.boxItems, InBox(b, item)) == Total(s.boxItems, InBox(b, item))
                 + (if b == step.box && item == step.item then
                    (if step.DoReverse? then -step.quantity else step.quantity) else 0.0)
  {
    var t := Next(s, step);
    if step.DoReverse? {
      var k := LastInBox(s.boxItems, step.box, step.item).value;
      TotalUpdate(s.boxItems, k, t.boxItems[k], InBox(b, item));
    } else {
      TotalPush(s.boxItems, BoxItem(step.box, step.item, step.quantity), InBox(b, item));
    }
  }

  lemma SaleBalances(s: State, list: nat, b: nat, item: Item)
    requires Structure(s) && BalancedAt(s, b, item) && CompleteSale(s, list).Ok?
    ensures BalancedAt(CompleteSale(s, list).value, b, item)
  {
    SaleIs(s, list);
    var m, box := Boxed(s, list), |s.boxes|;
    var open, items := s.(boxes := m.boxes), ItemsOnList(s.lines, list, |s.lines|);
    AssignPickedFits(open, box, list, items);
    ShippedBoxes(m, box);
    ShipBoxPosts(m, box, b, item);
    if b != box {
      AssignPickedElsewhere(open, box, list, items, InBox(b, item));
    }
  }

  lemma NextBalances(s: State, step: Step, b: nat, item: Item)
    requires Structure(s) && BalancedAt(s, b, item) && Disturbance(s, step) == 0.0
    ensures BalancedAt(Next(s, step), b, item)
  {
    if Apply(s, step).Ok? {
      if step.DoAssign? || step.DoConsolidate? || step.DoReverse? {
        HandlingIn(s, step, b, item);
      } else if step.DoShip? {
        ShippingBalances(s, step.box, b, item);
      } else if step.DoMark? {
        MarkingBalances(s, step.box, b, item);
      } else if step.DoLoad? {
        LoadingBalances(s, step.box, b, item);
      } else if step.DoReconcile? {
        ReconcilePostsNoShipment(s, step.list, step.request, b, item);
      } else if step.DoCompleteSale? {
        SaleBalances(s, step.list, b, item);
      }
    }
  }

  /** A step keeps ledger and boxes in agreement exactly when it does not put goods into, or take them
      out of, a box that has already left. The engine checks for that in neither place. */
  lemma BalanceKeptIff(s: State, step: Step)
    requires Structure(s) && Balanced(s)
    ensures Balanced(Next(s, step)) <==> Disturbance(s, step) == 0.0
  {
    if Disturbance(s, step) == 0.0 {
      var t := Next(s, step);
      forall b: nat, item: Item ensures BalancedOn(t.boxes, t.boxItems, t.ledger, b, item) {
        NextBalances(s, step, b, item);
      }
    } else {
      HandlingIn(s, step, step.box, step.item);
      assert BalancedAt(s, step.box, step.item);
      assert !BalancedAt(Next(s, step), step.box, step.item);
    }
  }

  /** A run in which no box is touched after it left. */
  predicate Undisturbed(s0: State, steps: seq<Step>) {
    |steps| == 0
    || (Undisturbed(s0, steps[..|steps| - 1]) && Disturbance(Run(s0, steps[..|steps| - 1]), steps[|steps| - 1]) == 0.0)
  }

  /** Over every such run, and for every box and item, the ledger has let go exactly what is in the box
      if the box has left, and nothing if it has not. */
  lemma {:induction false} LedgerIsBoxes(s0: State, steps: seq<Step>)
    requires Initial(s0) && Undisturbed(s0, steps)
    ensures Balanced(Run(s0, steps))
  {
    if |steps| > 0 {
      var head := steps[..|steps| - 1];
      LedgerIsBoxes(s0, head);
      RunKeeps(s0, head);
      BalanceKeptIff(Run(s0, head), steps[|steps| - 1]);
    }
  }

  // A box leaves once

  lemma LoadingLeavesGoneBox(s: State, box: nat, b: nat, item: Item)
    requires b < |s.boxes| && s.boxes[b].shipped && ShipBox(s, box).Ok?
    ensures var t := ShipBox(s, box).value;
            && |t.boxes| == |s.boxes| && t.boxes[b].shipped
            && Total(t.ledger, OutOfBox(b, item)) == Total(s.ledger, OutOfBox(b, item))
  {
    ShippedBoxes(s, box);
    if !s.boxes[box].shipped {
      var list := s.boxes[box].list.value;
      var packing := if s.boxes[box].packing.Some? then s.boxes[box].packing else s.lists[list].packing;
      ShipItemsPost(Stock(s.balances, s.lines, s.ledger), s.boxItems, box, list, packing.value,
                    ItemsInBox(s.boxItems, box), b, item);
    }
  }

  lemma LoadLeavesGoneBox(s: State, step: Step, b: nat, item: Item)
    requires b < |s.boxes| && s.boxes[b].shipped && (step.DoShip? || step.DoMark? || step.DoLoad?)
    ensures var t := Next(s, step);
            && b < |t.boxes| && t.boxes[b].shipped
            && Total(t.ledger, OutOfBox(b, item)) == Total(s.ledger, OutOfBox(b, item))
  {
    if ShipBox(s, step.box).Ok? {
      LoadingLeavesGoneBox(s, step.box, b, item);
    }
  }

  lemma NextLeavesGoneBox(s: State, step: Step, b: nat, item: Item)
    requires b < |s.boxes| && s.boxes[b].shipped
    ensures var t := Next(s, step);
            && b < |t.boxes| && t.boxes[b].shipped
            && Total(t.ledger, OutOfBox(b, item)) == Total(s.ledger, OutOfBox(b, item))
  {
    if step.DoShip? || step.DoMark? || step.DoLoad? {
      LoadLeavesGoneBox(s, step, b, item);
    } else if step.DoReconcile? && Apply(s, step).Ok? {
      ReconcilePostsNoShipment(s, step.list, step.request, b, item);
    } else if step.DoCompleteSale? && Apply(s, step).Ok? {
      SaleIs(s, step.list);
      LoadingLeavesGoneBox(Boxed(s, step.list), |s.boxes|, b, item);
    }
  }

  /** Once a box has left, by whichever way it was loaded, nothing more is ever posted for it, whatever is
      put into it and however often it is loaded again. */
  lemma {:induction false} GoneIsGone(s: State, steps: seq<Step>, b: nat, item: Item)
    requires b < |s.boxes| && s.boxes[b].shipped
    ensures var t := Run(s, steps);
            && b < |t.boxes| && t.boxes[b].shipped
            && Total(t.ledger, OutOfBox(b, item)) == Total(s.ledger, OutOfBox(b, item))
  {
    if |steps| > 0 {
      GoneIsGone(s, steps[..|steps| - 1], b, item);
      NextLeavesGoneBox(Run(s, steps[..|steps| - 1]), steps[|steps| - 1], b, item);
    }
  }

  /** A box not linked to a list yet is gone once it is marked at the bench: whatever any continuation packs
      into it never leaves the books. Loading it onto a trip leaves it to be shipped later. */
  lemma BenchMarkForfeits(s: State, box: nat, steps: seq<Step>, item: Item)
    requires box < |s.boxes| && s.boxes[box].list.None? && !s.boxes[box].shipped
    ensures Total(Run(Next(s, DoMark(box)), steps).ledger, OutOfBox(box, item)) == Total(s.ledger, OutOfBox(box, item))
    ensures !Next(s, DoLoad(box)).boxes[box].shipped
  {
    GoneIsGone(Next(s, DoMark(box)), steps, box, item);
  }
}
