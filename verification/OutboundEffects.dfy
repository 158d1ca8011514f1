/** What the building blocks of the outbound operations do to the sums over the tables. */
module OutboundEffects {
  import opened Wrappers
  import opened Sums
  import opened Greedy
  import opened OutboundTables
  import opened OutboundSteps

  /** An adjustment moves its own item's total by its delta, and no reserved quantity at all. */
  lemma AdjustTotals(balances: seq<Balance>, item: Item, location: nat, delta: real, other: Item)
    ensures Total(Adjust(balances, item, location, delta), ActualOf(other))
              == Total(balances, ActualOf(other)) + (if other == item then delta else 0.0)
    ensures Total(Adjust(balances, item, location, delta), ReservedOf(other)) == Total(balances, ReservedOf(other))
  {
    match FindRow(balances, item, location)
    case Some(i) =>
      var row := balances[i].(actual := balances[i].actual + delta);
      TotalUpdate(balances, i, row, ActualOf(other));
      TotalUpdate(balances, i, row, ReservedOf(other));
    case None =>
      var row := Balance(item, location, None, delta, 0.0);
      TotalPush(balances, row, ActualOf(other));
      TotalPush(balances, row, ReservedOf(other));
  }

  ghost predicate OnKey(l: Line, list: nat, item: Item) { l.list == list && l.item == item }

  // Packing: each line keeps packed within picked, and the list takes all it has room for

  lemma PackedRow(lines: seq<Line>, list: nat, item: Item, q: real, i: nat)
    requires 0.0 <= q && i < |lines| && lines[i].packed <= lines[i].picked
    ensures var r := SpreadPacked(lines, list, item, q);
            && r[i] == lines[i].(packed := r[i].packed)
            && lines[i].packed <= r[i].packed <= lines[i].picked
            && (!OnKey(lines[i], list, item) ==> r[i] == lines[i])
            && PackedOf(list, item)(r[i]) == PackedOf(list, item)(lines[i]) + Takes(lines, PackRoom(list, item), q)[i]
            && PickedOf(list, item)(lines[i]) == PackedOf(list, item)(lines[i]) + PackRoom(list, item)(lines[i])
            && 0.0 <= PackRoom(list, item)(lines[i])
  {
    var take := Take(lines, i, PackRoom(list, item), q);
    assert SpreadPacked(lines, list, item, q)[i].packed == lines[i].packed + take;
    assert Takes(lines, PackRoom(list, item), q)[i] == take;
  }

  lemma PackRoomTotal(lines: seq<Line>, list: nat, item: Item)
    requires forall i :: 0 <= i < |lines| ==> lines[i].packed <= lines[i].picked
    ensures Total(lines, PickedOf(list, item)) == Total(lines, PackedOf(list, item))
            + Total(lines, PackRoom(list, item))
    ensures forall i :: 0 <= i < |lines| ==> 0.0 <= PackRoom(list, item)(lines[i])
  {
    TotalAdd(lines, PackedOf(list, item), lines, PackRoom(list, item), lines, PickedOf(list, item));
  }

  lemma PackedOfGrowth(lines: seq<Line>, list: nat, item: Item, q: real)
    requires 0.0 <= q && forall i :: 0 <= i < |lines| ==> lines[i].packed <= lines[i].picked
    ensures Total(SpreadPacked(lines, list, item, q), PackedOf(list, item))
              == Total(lines, PackedOf(list, item)) + Total(Takes(lines, PackRoom(list, item), q), SAME)
  {
    var takes, r := Takes(lines, PackRoom(list, item), q), SpreadPacked(lines, list, item, q);
    forall i | 0 <= i < |lines| ensures PackedOf(list, item)(r[i]) == PackedOf(list, item)(lines[i]) + SAME(takes[i]) {
      PackedRow(lines, list, item, q, i);
    }
    TotalAdd(lines, PackedOf(list, item), takes, SAME, r, PackedOf(list, item));
  }

  lemma PackedOfCapped(lines: seq<Line>, grown: seq<Line>, takes: real, list: nat, item: Item, q: real)
    requires Total(grown, PackedOf(list, item)) == Total(lines, PackedOf(list, item)) + takes
    requires takes == Min(q, Total(lines, PackRoom(list, item)))
    requires Total(lines, PickedOf(list, item)) == Total(lines, PackedOf(list, item))
             + Total(lines, PackRoom(list, item))
    ensures Total(grown, PackedOf(list, item)) == Min(Total(lines, PackedOf(list, item)) + q,
                                                      Total(lines, PickedOf(list, item)))
  {
  }

  lemma PackingSpread(lines: seq<Line>, list: nat, item: Item, q: real)
    requires 0.0 <= q && forall i :: 0 <= i < |lines| ==> lines[i].packed <= lines[i].picked
    ensures Total(SpreadPacked(lines, list, item, q), PackedOf(list, item))
              == Min(Total(lines, PackedOf(list, item)) + q, Total(lines, PickedOf(list, item)))
  {
    var grown, takes := SpreadPacked(lines, list, item, q), Takes(lines, PackRoom(list, item), q);
    PackRoomTotal(lines, list, item);
    TakesTotal(lines, PackRoom(list, item), q, |lines|);
    PackedOfGrowth(lines, list, item, q);
    PackedOfCapped(lines, grown, Total(takes, SAME), list, item, q);
  }

  /** Lines are packed lowest id first: one is given something only when every line of the list and item before it
      holds all that was picked. */
  lemma PackingInOrder(lines: seq<Line>, list: nat, item: Item, q: real, i: nat, j: nat)
    requires 0.0 <= q && (forall k :: 0 <= k < |lines| ==> lines[k].packed <= lines[k].picked)
    requires i < j < |lines| && OnKey(lines[i], list, item)
    requires lines[j].packed < SpreadPacked(lines, list, item, q)[j].packed
    ensures SpreadPacked(lines, list, item, q)[i].packed == lines[i].picked
  {
    PackRoomTotal(lines, list, item);
    FirstIsFilled(lines, PackRoom(list, item), q, i, j);
  }

  // Reversal: the give-back never takes a line below zero

  lemma GivenRow(lines: seq<Line>, list: nat, item: Item, q: real, i: nat)
    requires 0.0 <= q && i < |lines| && 0.0 <= lines[i].packed
    ensures var r := GiveBack(lines, list, item, q);
            && r[i] == lines[i].(packed := r[i].packed)
            && 0.0 <= r[i].packed <= lines[i].packed
            && (!OnKey(lines[i], list, item) ==> r[i] == lines[i])
            && PackedOf(list, item)(lines[i]) == Gives(lines, PackedHeld(list, item), q)[i] + PackedOf(list, item)(r[i])
            && PackedHeld(list, item)(lines[i]) == PackedOf(list, item)(lines[i])
  {
    var give := Give(lines, i, PackedHeld(list, item), q);
    assert GiveBack(lines, list, item, q)[i].packed == lines[i].packed - give;
    assert Gives(lines, PackedHeld(list, item), q)[i] == give;
  }

  lemma PackingGiveBack(lines: seq<Line>, list: nat, item: Item, q: real)
    requires 0.0 <= q && forall i :: 0 <= i < |lines| ==> 0.0 <= lines[i].packed
    ensures Total(GiveBack(lines, list, item, q), PackedOf(list, item))
            == Max(Total(lines, PackedOf(list, item)) - q, 0.0)
  {
    var r, held := GiveBack(lines, list, item, q), PackedHeld(list, item);
    var gives := Gives(lines, held, q);
    forall i | 0 <= i < |lines| ensures
        && PackedOf(list, item)(lines[i]) == SAME(gives[i]) + PackedOf(list, item)(r[i])
        && held(lines[i]) == PackedOf(list, item)(lines[i])
        && 0.0 <= held(lines[i])
    {
      GivenRow(lines, list, item, q, i);
    }
    GivesTotal(lines, held, q, 0);
    TotalSame(lines, held, lines, PackedOf(list, item));
    TotalAdd(gives, SAME, r, PackedOf(list, item), lines, PackedOf(list, item));
  }

  /** Lines give back highest id first: one is taken from only when every line of the list and item after it holds
      nothing any more. */
  lemma GiveBackInOrder(lines: seq<Line>, list: nat, item: Item, q: real, i: nat, j: nat)
    requires 0.0 <= q && (forall k :: 0 <= k < |lines| ==> 0.0 <= lines[k].packed)
    requires i < j < |lines| && OnKey(lines[j], list, item)
    requires GiveBack(lines, list, item, q)[i].packed < lines[i].packed
    ensures GiveBack(lines, list, item, q)[j].packed == 0.0
  {
    LastIsEmptied(lines, PackedHeld(list, item), q, i, j);
  }

  // Shipping: each line keeps consumed within picked

  lemma ConsumedRow(lines: seq<Line>, list: nat, item: Item, q: real, i: nat)
    requires 0.0 <= q && i < |lines| && lines[i].consumed <= lines[i].picked
    ensures var r := SpreadConsumed(lines, list, item, q);
            && r[i] == lines[i].(consumed := r[i].consumed, status := r[i].status)
            && lines[i].consumed <= r[i].consumed <= lines[i].picked
            && (r[i].status != lines[i].status ==> lines[i].consumed < r[i].consumed && r[i].status != Shortage)
            && (!OnKey(lines[i], list, item) ==> r[i] == lines[i])
            && ConsumedOf(list, item)(r[i]) == ConsumedOf(list, item)(lines[i])
               + Takes(lines, ShipRoom(list, item), q)[i]
            && PickedOf(list, item)(lines[i]) == ConsumedOf(list, item)(lines[i]) + ShipRoom(list, item)(lines[i])
            && 0.0 <= ShipRoom(list, item)(lines[i])
  {
    var take := Take(lines, i, ShipRoom(list, item), q);
    assert SpreadConsumed(lines, list, item, q)[i] == Deliver(lines[i], take);
    assert Takes(lines, ShipRoom(list, item), q)[i] == take;
  }

  lemma ShipRoomTotal(lines: seq<Line>, list: nat, item: Item)
    requires forall i :: 0 <= i < |lines| ==> lines[i].consumed <= lines[i].picked
    ensures Total(lines, PickedOf(list, item)) == Total(lines, ConsumedOf(list, item))
            + Total(lines, ShipRoom(list, item))
    ensures forall i :: 0 <= i < |lines| ==> 0.0 <= ShipRoom(list, item)(lines[i])
  {
    TotalAdd(lines, ConsumedOf(list, item), lines, ShipRoom(list, item), lines, PickedOf(list, item));
  }

  lemma ConsumedOfGrowth(lines: seq<Line>, list: nat, item: Item, q: real)
    requires 0.0 <= q && forall i :: 0 <= i < |lines| ==> lines[i].consumed <= lines[i].picked
    ensures Total(SpreadConsumed(lines, list, item, q), ConsumedOf(list, item))
              == Total(lines, ConsumedOf(list, item)) + Total(Takes(lines, ShipRoom(list, item), q), SAME)
  {
    var takes, r := Takes(lines, ShipRoom(list, item), q), SpreadConsumed(lines, list, item, q);
    forall i | 0 <= i < |lines| ensures ConsumedOf(list, item)(r[i])
        == ConsumedOf(list, item)(lines[i]) + SAME(takes[i]) {
      ConsumedRow(lines, list, item, q, i);
    }
    TotalAdd(lines, ConsumedOf(list, item), takes, SAME, r, ConsumedOf(list, item));
  }

  lemma ConsumedOfCapped(lines: seq<Line>, grown: seq<Line>, takes: real, list: nat, item: Item, q: real)
    requires Total(grown, ConsumedOf(list, item)) == Total(lines, ConsumedOf(list, item)) + takes
    requires takes == Min(q, Total(lines, ShipRoom(list, item)))
    requires Total(lines, PickedOf(list, item)) == Total(lines, ConsumedOf(list, item))
             + Total(lines, ShipRoom(list, item))
    ensures Total(grown, ConsumedOf(list, item))
            == Min(Total(lines, ConsumedOf(list, item)) + q, Total(lines, PickedOf(list, item)))
  {
  }

  lemma ShippingSpread(lines: seq<Line>, list: nat, item: Item, q: real)
    requires 0.0 <= q && forall i :: 0 <= i < |lines| ==> lines[i].consumed <= lines[i].picked
    ensures Total(SpreadConsumed(lines, list, item, q), ConsumedOf(list, item))
              == Min(Total(lines, ConsumedOf(list, item)) + q, Total(lines, PickedOf(list, item)))
  {
    var grown, takes := SpreadConsumed(lines, list, item, q), Takes(lines, ShipRoom(list, item), q);
    ShipRoomTotal(lines, list, item);
    TakesTotal(lines, ShipRoom(list, item), q, |lines|);
    ConsumedOfGrowth(lines, list, item, q);
    ConsumedOfCapped(lines, grown, Total(takes, SAME), list, item, q);
  }

  /** Lines are delivered lowest id first: one consumes something only when every line of the list and item before it
      has consumed all that was picked. */
  lemma ShippingInOrder(lines: seq<Line>, list: nat, item: Item, q: real, i: nat, j: nat)
    requires 0.0 <= q && (forall k :: 0 <= k < |lines| ==> lines[k].consumed <= lines[k].picked)
    requires i < j < |lines| && OnKey(lines[i], list, item)
    requires lines[j].consumed < SpreadConsumed(lines, list, item, q)[j].consumed
    ensures SpreadConsumed(lines, list, item, q)[i].consumed == lines[i].picked
  {
    ShipRoomTotal(lines, list, item);
    FirstIsFilled(lines, ShipRoom(list, item), q, i, j);
  }
}
