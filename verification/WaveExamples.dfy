/** Runs from an opening state to where a hoped-for law of waves and boxes fails. */
module WaveExamples {
  import opened Wrappers
  import opened Sums
  import opened Greedy
  import opened OutboundTables
  import opened OutboundSteps
  import opened OutboundInvariant
  import opened BenchStock
  import opened LettingGo
  import opened OutboundRuns
  import opened OutboundExamples
  import opened Reconcile
  import opened ReconcileKeeps
  import opened ShipBalance
  import opened WaveRuns
  import Postings

  // Reached by a run

  ghost predicate Reached(s: State) { exists steps :: Run(OPENING, steps) == s }

  lemma ReachNext(s: State, step: Step)
    requires Reached(s)
    ensures Reached(Next(s, step))
  {
    var steps :| Run(OPENING, steps) == s;
    assert (steps + [step])[..|steps|] == steps;
    assert Run(OPENING, steps + [step]) == Next(s, step);
  }

  lemma ReachedIsOk(s: State)
    requires Reached(s)
    ensures Inv(OPENING, s)
  {
    var steps :| Run(OPENING, steps) == s;
    RunKeeps(OPENING, steps);
  }

  lemma AllocatedIsReached()
    ensures Reached(ALLOCATED)
  {
    assert Run(OPENING, []) == OPENING;
    ReachNext(OPENING, DoOpenList(ForOrder, 0, 1));
    assert OPENING.lists + [PickList(ForOrder, 0, Some(1), Open, false)] == OPENED.lists;
    assert Next(OPENING, DoOpenList(ForOrder, 0, 1)) == OPENED;
    AllocatesAll();
    ReachNext(OPENED, DoAllocate(0, "BOLT", 20000.0, true));
  }

  // The last pick

  /** A list closed by its last pick, with everything it picked still unpacked: no continuation returns it
      to stock or writes it off. */
  lemma LastPickForfeitsLeftover()
    ensures Reached(OVER_PICKED) && LeftoverOf(OVER_PICKED.lines, 0, "BOLT") == 20001.0
    ensures !CanBeReconciled(OVER_PICKED, 0)
  {
    AllocatedIsReached();
    PicksTooMuch();
    ReachNext(ALLOCATED, DoPick(PICKED));
    TotalOfOne(OVER_PICKED.lines, PackRoom(0, "BOLT"));
    ReconcilableIff(OVER_PICKED, 0);
  }

  // Half the bolts picked, so that the list stays open

  const HALF := PickInput(0, Some(0), "BOLT", "", "", 10000.0, false)

  const HALF_PICKED := ALLOCATED.(
    balances := [Balance("BOLT", 0, None, 10000.0, 10000.0), Balance("BOLT", 1, None, 10000.0, 0.0)],
    lines := [BOLT_LINE.(picked := 10000.0, status := InProgress)])

  lemma PicksHalf()
    ensures Reached(HALF_PICKED)
  {
    var s, t := ALLOCATED, HALF_PICKED;
    AllocatedIsReached();
    assert CheckPick(s, HALF) == Ok(0);
    assert FindRow(ConsumeReserved(s.balances, 0, 10000.0), "BOLT", 1).None?;
    assert Adjust(ConsumeReserved(s.balances, 0, 10000.0), "BOLT", 1, 10000.0) == t.balances;
    assert s.lines[0 := BOLT_LINE.(picked := 10000.0, status := InProgress)] == t.lines;
    assert t.lines[0].list == 0 && t.lines[0].picked < t.lines[0].alloc;
    assert StillToPick(t.lines, 0);
    assert Pick(s, 0, 0, 10000.0) == t;
    ReachNext(s, DoPick(HALF));
  }

  const FOR_BOLTS := OrderLine(0, 7, "BOLT", 10000.0, 0.0)
  const FOR_NUTS := OrderLine(0, 7, "NUT", 1.0, 0.0)

  /** An open box and an order for bolts and a nut. */
  const ORDERED := HALF_PICKED.(
    boxes := [Box(Some(0), None, Some(1), false, false)], orderLines := [FOR_BOLTS, FOR_NUTS])

  lemma Orders()
    ensures Reached(ORDERED)
  {
    PicksHalf();
    var a := HALF_PICKED.(boxes := ORDERED.boxes);
    assert HALF_PICKED.boxes + [Box(Some(0), None, Some(1), false, false)] == a.boxes;
    ReachNext(HALF_PICKED, DoOpenBox(Some(0), None));
    var b := a.(orderLines := [FOR_BOLTS]);
    assert a.orderLines + [FOR_BOLTS] == b.orderLines;
    ReachNext(a, DoAddOrderLine(0, 7, "BOLT", 10000.0));
    assert b.orderLines + [FOR_NUTS] == ORDERED.orderLines;
    assert FindOrderLine(b.orderLines, 0, 7, "NUT").None?;
    ReachNext(b, DoAddOrderLine(0, 7, "NUT", 1.0));
  }

  /** The order given one bolt more than it asked for, within the tolerance. */
  const CONSOLIDATED := ORDERED.(
    boxes := [Box(Some(0), Some(7), Some(1), false, false)], boxItems := [BoxItem(0, "BOLT", 10001.0)],
    lines := [BOLT_LINE.(picked := 10000.0, packed := 10000.0, status := InProgress)],
    orderLines := [FOR_BOLTS.(consolidated := 10001.0), FOR_NUTS])

  lemma Assigns(s: State)
    requires s.lines == HALF_PICKED.lines && s.boxItems == [] && |s.boxes| == 1 && s.boxes[0].list == Some(0)
    ensures AssignToBox(s, 0, 0, "BOLT", 10001.0)
            == Ok(s.(boxItems := CONSOLIDATED.boxItems, lines := CONSOLIDATED.lines))
  {
    TotalOfOne(s.lines, PickedOf(0, "BOLT"));
    assert Total(s.boxItems, BoxedOf(s.boxes, 0, "BOLT")) == 0.0;
    assert s.boxItems + [BoxItem(0, "BOLT", 10001.0)] == CONSOLIDATED.boxItems;
    assert Remaining(s.lines, 0, PackRoom(0, "BOLT"), 10001.0) == 10001.0;
    assert SpreadPacked(s.lines, 0, "BOLT", 10001.0) == CONSOLIDATED.lines;
  }

  lemma FindsBolts()
    ensures FindOrderLine(ORDERED.orderLines, 0, 7, "BOLT") == Some(0)
  {
  }

  lemma ConsolidatesTo()
    ensures Consolidate(ORDERED, 0, 7, 0, "BOLT", 10001.0) == Ok(CONSOLIDATED)
  {
    FindsBolts();
    var m := LinkBox(ORDERED, 0, 0, 7);
    Assigns(m);
    assert m.orderLines[0 := FOR_BOLTS.(consolidated := 10001.0)] == CONSOLIDATED.orderLines;
    assert m.boxes == CONSOLIDATED.boxes;
  }

  lemma Consolidates()
    ensures Reached(CONSOLIDATED)
  {
    Orders();
    ConsolidatesTo();
    ReachNext(ORDERED, DoConsolidate(0, 7, 0, "BOLT", 10001.0));
  }

  // A hidden shortage

  lemma BoltsCountAsComplete()
    ensures OrderComplete(CONSOLIDATED.orderLines, 0, 7) && Total(CONSOLIDATED.orderLines, ShortOf(0, 7, "NUT")) == 1.0
  {
    TotalOfTwo(CONSOLIDATED.orderLines, ShortOf(0, 7, "NUT"));
    TotalOfTwo(CONSOLIDATED.orderLines, RequiredIn(0, 7));
    TotalOfTwo(CONSOLIDATED.orderLines, ConsolidatedIn(0, 7));
  }

  lemma NothingLeftOver()
    ensures LeftoverBreakdown(CONSOLIDATED, 0) == []
  {
    var lines := CONSOLIDATED.lines;
    assert ItemsOnList(lines, 0, 0) == [] && lines[0].list == 0;
    assert ItemsOnList(lines, 0, 1) == ["BOLT"] && ["BOLT"][..0] == [];
    TotalOfOne(lines, PackRoom(0, "BOLT"));
    assert Leftovers(lines, 0, []) == [];
  }

  /** An over-consolidated item hides the shortage of another one of the same order: this wave closes
      without being forced, and the nut it never got is not backordered. */
  lemma OverConsolidationHidesShortage()
    ensures Reached(CONSOLIDATED) && CONSOLIDATED.lists[0].status != ListCompleted
    ensures CloseWave(CONSOLIDATED, 0, Request(false, false, false, NoResolution)).Ok?
    ensures Total(CONSOLIDATED.orderLines, ShortOf(0, 7, "NUT")) == 1.0
    ensures NewlyBackordered(CONSOLIDATED, 0, Request(false, false, false, NoResolution), 7, "NUT") == 0.0
  {
    var request := Request(false, false, false, NoResolution);
    Consolidates();
    BoltsCountAsComplete();
    NothingLeftOver();
    assert forall order :: order in OrdersOf(CONSOLIDATED.orderLines, 0, 2) ==> order == 7;
    ShortageBackorderedIff(CONSOLIDATED, 0, request, 7, "NUT");
  }

  // Reversing

  const REVERSED := CONSOLIDATED.(
    boxItems := [BoxItem(0, "BOLT", 10000.0)], reversals := [Reversal(0, "BOLT", 1.0, false)],
    lines := [BOLT_LINE.(picked := 10000.0, packed := 9999.0, status := InProgress)])

  lemma Reverses()
    ensures Reached(REVERSED)
  {
    var s := CONSOLIDATED;
    Consolidates();
    TotalOfOne(s.boxItems, InBox(0, "BOLT"));
    assert LastInBox(s.boxItems, 0, "BOLT") == Some(0);
    assert s.boxItems[0 := BoxItem(0, "BOLT", 10000.0)] == REVERSED.boxItems;
    TotalOfOne(s.lines, PackedHeld(0, "BOLT"));
    assert GiveBack(s.lines, 0, "BOLT", 1.0) == REVERSED.lines;
    assert s.reversals + [Reversal(0, "BOLT", 1.0, false)] == REVERSED.reversals;
    ReachNext(s, DoReverse(0, "BOLT", 1.0));
  }

  /** A bolt reversed stays counted as given to the order. */
  lemma GivenIsNotBoxed()
    ensures Reached(REVERSED)
    ensures Total(REVERSED.orderLines, ConsolidatedOf(0, "BOLT")) == 10001.0
    ensures Total(REVERSED.boxItems, BoxedOf(REVERSED.boxes, 0, "BOLT")) == 10000.0
  {
    Reverses();
    TotalOfTwo(REVERSED.orderLines, ConsolidatedOf(0, "BOLT"));
    TotalOfOne(REVERSED.boxItems, BoxedOf(REVERSED.boxes, 0, "BOLT"));
  }

  // After the box has left

  lemma ShipsReversed()
    ensures ShipBox(REVERSED, 0).Ok?
  {
    var s, items := REVERSED, ItemsInBox(REVERSED.boxItems, 0);
    assert s.boxItems[0].box == 0 && s.boxItems[0].item == "BOLT";
    assert items == ["BOLT"];
    TotalOfOne(s.boxItems, InBox(0, "BOLT"));
    assert s.balances[1].item == "BOLT" && s.balances[1].location == 1;
    var k := Stock(s.balances, s.lines, s.ledger);
    assert ShipItems(k, s.boxItems, 0, 0, 1, []) == Ok(k) && items[..0] == [];
    assert ShipItem(k, s.boxItems, 0, 0, 1, "BOLT").Ok?;
  }

  lemma ShippedStands()
    ensures var s := Next(REVERSED, DoShip(0));
            && Reached(s) && Balanced(s) && s.boxItems == REVERSED.boxItems
            && |s.boxes| == 1 && s.boxes[0].shipped && s.boxes[0].list == Some(0)
  {
    Reverses();
    ReachedIsOk(REVERSED);
    ShipsReversed();
    BalanceKeptIff(REVERSED, DoShip(0));
    ReachNext(REVERSED, DoShip(0));
    Postings.ShippedBoxes(REVERSED, 0);
  }

  lemma ReversalGoesThrough(s: State)
    requires s.boxItems == REVERSED.boxItems && |s.boxes| == 1 && s.boxes[0].list == Some(0)
    ensures ReverseItem(s, 0, "BOLT", 4.0).Ok?
  {
    TotalOfOne(s.boxItems, InBox(0, "BOLT"));
    assert LastInBox(s.boxItems, 0, "BOLT") == Some(0);
  }

  /** Reversing out of a box that has left is let through, and leaves more in the ledger than in the box. */
  lemma LateReversalUnbalances()
    ensures var s := Next(REVERSED, DoShip(0));
            && Reached(s) && Balanced(s)
            && Disturbance(s, DoReverse(0, "BOLT", 4.0)) == -4.0 && !Balanced(Next(s, DoReverse(0, "BOLT", 4.0)))
  {
    var s := Next(REVERSED, DoShip(0));
    ShippedStands();
    ReachedIsOk(s);
    ReversalGoesThrough(s);
    BalanceKeptIff(s, DoReverse(0, "BOLT", 4.0));
  }

  // Marked before it is linked

  const MARKED := HALF_PICKED.(boxes := [Box(None, None, None, true, true)], orderLines := [FOR_BOLTS])

  lemma Marks()
    ensures Reached(MARKED)
  {
    PicksHalf();
    var a := HALF_PICKED.(boxes := [Box(None, None, None, false, false)]);
    assert HALF_PICKED.boxes + a.boxes == a.boxes;
    ReachNext(HALF_PICKED, DoOpenBox(None, None));
    var b := HALF_PICKED.(boxes := MARKED.boxes);
    assert a.boxes[0 := MARKED.boxes[0]] == b.boxes;
    assert Next(a, DoMark(0)) == b;
    ReachNext(a, DoMark(0));
    assert b.orderLines + [FOR_BOLTS] == MARKED.orderLines;
    ReachNext(b, DoAddOrderLine(0, 7, "BOLT", 10000.0));
  }

  /** A box marked loaded before it was linked, then packed: ten thousand and one bolts in it that no continuation
      takes off the books. */
  lemma MarkedBoxNeverPosts(steps: seq<Step>)
    ensures var s := Next(MARKED, DoConsolidate(0, 7, 0, "BOLT", 10001.0));
            && Reached(s) && Total(s.boxItems, InBox(0, "BOLT")) == 10001.0
            && Total(Run(s, steps).ledger, Postings.OutOfBox(0, "BOLT")) == 0.0
  {
    var s := Next(MARKED, DoConsolidate(0, 7, 0, "BOLT", 10001.0));
    Marks();
    ReachNext(MARKED, DoConsolidate(0, 7, 0, "BOLT", 10001.0));
    assert FindOrderLine(MARKED.orderLines, 0, 7, "BOLT") == Some(0);
    Assigns(LinkBox(MARKED, 0, 0, 7));
    TotalOfOne(s.boxItems, InBox(0, "BOLT"));
    GoneIsGone(s, steps, 0, "BOLT");
  }

  // Let go twice

  const PART_BOXED := HALF_PICKED.(
    boxes := [Box(Some(0), None, Some(1), false, false)], boxItems := [BoxItem(0, "BOLT", 4000.0)],
    lines := [BOLT_LINE.(picked := 10000.0, packed := 4000.0, status := InProgress)])

  lemma PartIsBoxed()
    ensures Reached(PART_BOXED)
  {
    PicksHalf();
    var s := HALF_PICKED.(boxes := PART_BOXED.boxes);
    assert HALF_PICKED.boxes + PART_BOXED.boxes == s.boxes;
    ReachNext(HALF_PICKED, DoOpenBox(Some(0), None));
    TotalOfOne(s.lines, PickedOf(0, "BOLT"));
    assert Total(s.boxItems, BoxedOf(s.boxes, 0, "BOLT")) == 0.0;
    assert s.boxItems + PART_BOXED.boxItems == PART_BOXED.boxItems;
    assert Remaining(s.lines, 0, PackRoom(0, "BOLT"), 4000.0) == 4000.0;
    assert SpreadPacked(s.lines, 0, "BOLT", 4000.0) == PART_BOXED.lines;
    ReachNext(s, DoAssign(0, 0, "BOLT", 4000.0));
  }

  const PART_SENT := PART_BOXED.(
    balances := [Balance("BOLT", 0, None, 10000.0, 10000.0), Balance("BOLT", 1, None, 6000.0, 0.0)],
    boxes := [Box(Some(0), None, Some(1), true, true)], ledger := [LedgerEntry("BOLT", -4000.0, SalesShip(0))],
    lines := [BOLT_LINE.(picked := 10000.0, packed := 4000.0, consumed := 4000.0, status := PartlyDelivered)])

  lemma PartIsTakenOut()
    ensures var s, t := PART_BOXED, PART_SENT;
            ShipItem(Stock(s.balances, s.lines, s.ledger), s.boxItems, 0, 0, 1, "BOLT")
              == Ok(Stock(t.balances, t.lines, t.ledger))
  {
    var s, t := PART_BOXED, PART_SENT;
    TotalOfOne(s.boxItems, InBox(0, "BOLT"));
    assert FindRow(s.balances[..1], "BOLT", 1).None?;
    assert FindRow(s.balances, "BOLT", 1) == Some(1);
    assert s.balances[1 := t.balances[1]] == t.balances;
    assert Remaining(s.lines, 0, ShipRoom(0, "BOLT"), 4000.0) == 4000.0;
    assert SpreadConsumed(s.lines, 0, "BOLT", 4000.0) == t.lines;
    assert s.ledger + t.ledger == t.ledger;
  }

  lemma PartIsSent()
    ensures Reached(PART_SENT)
  {
    var s, t, items := PART_BOXED, PART_SENT, ItemsInBox(PART_BOXED.boxItems, 0);
    PartIsBoxed();
    PartIsTakenOut();
    assert s.boxItems[0].box == 0 && s.boxItems[0].item == "BOLT";
    assert items == ["BOLT"] && items[..0] == [];
    var k := Stock(s.balances, s.lines, s.ledger);
    assert ShipItems(k, s.boxItems, 0, 0, 1, []) == Ok(k);
    assert ShipItems(k, s.boxItems, 0, 0, 1, items) == Ok(Stock(t.balances, t.lines, t.ledger));
    assert t.lines[0].list == 0 && t.lines[0].picked > t.lines[0].consumed;
    assert StillToShip(t.lines, 0);
    assert s.boxes[0 := t.boxes[0]] == t.boxes;
    assert Next(s, DoShip(0)) == t;
    ReachNext(s, DoShip(0));
  }

  const PART_REVERSED := PART_SENT.(
    boxItems := [BoxItem(0, "BOLT", 0.0)], reversals := [Reversal(0, "BOLT", 4000.0, true)],
    lines := [BOLT_LINE.(picked := 10000.0, consumed := 4000.0, status := PartlyDelivered)])

  lemma PartIsReversed()
    ensures Reached(PART_REVERSED)
  {
    var s, t := PART_SENT, PART_REVERSED;
    PartIsSent();
    TotalOfOne(s.boxItems, InBox(0, "BOLT"));
    assert LastInBox(s.boxItems, 0, "BOLT") == Some(0);
    assert s.boxItems[0 := BoxItem(0, "BOLT", 0.0)] == t.boxItems;
    TotalOfOne(s.lines, PackedHeld(0, "BOLT"));
    assert GiveBack(s.lines, 0, "BOLT", 4000.0) == t.lines;
    assert s.reversals + t.reversals == t.reversals;
    assert Next(s, DoReverse(0, "BOLT", 4000.0)) == t;
    ReachNext(s, DoReverse(0, "BOLT", 4000.0));
  }

  const WRITE_OFF := DoReconcile(0, Request(true, true, true, WriteOff))

  lemma AllIsLeft()
    ensures var s := PART_REVERSED;
            && Reconciles(s, WRITE_OFF) && Disposable(s, 0, "BOLT") == 10000.0 && AtBench(s, 0, "BOLT") == 6000.0
            && Picked(s, 0, "BOLT") == 10000.0 && LetGo(s, 0, "BOLT") == 4000.0
  {
    var s := PART_REVERSED;
    TotalOfOne(s.lines, PackRoom(0, "BOLT"));
    TotalOfOne(s.lines, PickedOf(0, "BOLT"));
    TotalOfOne(s.ledger, ShippedOf(s.boxes, 0, "BOLT"));
    TotalOfOne(s.ledger, WriteOffsOf(0, "BOLT"));
    assert FindRow(s.balances[..1], "BOLT", 1).None?;
    assert FindRow(s.balances, "BOLT", 1) == Some(1);
    DisposalGoesThrough(s, 0, 1, LeftoverBreakdown(s, 0));
  }

  lemma BenchFallsBelowZero(t: State)
    requires t == Next(PART_REVERSED, WRITE_OFF)
    ensures Held(t.balances, "BOLT", 1) == -4000.0 && !Backed(t.balances)
  {
    var s := PART_REVERSED;
    AllIsLeft();
    BreakdownOf(s, 0, "BOLT");
    BreakdownNonEmpty(s, 0, "BOLT");
    DisposalHeld(s, 0, 1, WriteOff, LeftoverBreakdown(s, 0), s.(balances := t.balances, ledger := t.ledger), "BOLT");
  }

  /** Ten thousand bolts picked, four thousand boxed and shipped, and those reversed out of the box that had left:
      writing off the leftover then writes off ten thousand of the six that are there. The bench is four thousand
      below zero, and fourteen thousand bolts were let go of ten thousand picked. */
  lemma WrittenOffAndShipped()
    ensures var t := Next(PART_REVERSED, WRITE_OFF);
            && Reached(t) && Held(t.balances, "BOLT", 1) == -4000.0 && !Backed(t.balances)
            && Picked(t, 0, "BOLT") == 10000.0 && LetGo(t, 0, "BOLT") == 14000.0
            && !WithinPicked(t, 0, "BOLT")
  {
    PartIsReversed();
    ReachedIsOk(PART_REVERSED);
    AllIsLeft();
    ReachNext(PART_REVERSED, WRITE_OFF);
    BenchFallsBelowZero(Next(PART_REVERSED, WRITE_OFF));
    StepLetsGo(OPENING, PART_REVERSED, WRITE_OFF, 0, "BOLT");
    PickedGrows(PART_REVERSED, WRITE_OFF, 0, "BOLT");
  }
}
