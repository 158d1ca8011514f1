/** Confirming a pick keeps the outbound invariants, although the consumption at the source clamps at
    zero: whatever clamping adds to the total stock is taken out of the backing of the reservations. */
module PickKeeps {
  import opened Wrappers
  import opened Sums
  import opened OutboundTables
  import opened OutboundSteps
  import opened OutboundEffects
  import opened OutboundInvariant

  /** What a check that succeeded and the invariants say about the line to be picked. */
  ghost predicate Pickable(s: State, list: nat, i: nat, q: real) {
    && list < |s.lists| && i < |s.lines| && s.lines[i].list == list && s.lines[i].status != Shortage
    && q > 0.0 && s.lines[i].alloc > 0.0 && s.lines[i].picked + q <= s.lines[i].alloc * 1.0001
    && s.lines[i].balance.Some? && DrawsFrom(s.locations, s.balances, s.lines[i].item, s.lines[i].balance.value)
    && s.lists[list].packing.Some? && IsPacking(s.locations, s.lists[list].packing)
  }

  lemma CheckedIsPickable(s: State, input: PickInput)
    requires Structure(s) && CheckPick(s, input).Ok?
    ensures Pickable(s, input.list, CheckPick(s, input).value, PickQuantity(input))
  {
  }

  /** After a pick every row keeps its item and place; only the source row and the packing row change. */
  lemma PickedRows(s: State, list: nat, i: nat, q: real, b: nat)
    requires Pickable(s, list, i, q) && b < |s.balances|
    ensures var t, src := Pick(s, list, i, q), s.lines[i].balance.value;
            && |s.balances| <= |t.balances| <= |s.balances| + 1
            && t.balances[b].item == s.balances[b].item && t.balances[b].location == s.balances[b].location
            && t.balances[b].reserved == (if b == src then Max(s.balances[b].reserved - q, 0.0)
                                          else s.balances[b].reserved)
            && (!AtPacking(s.locations, s.balances[b]) ==>
                  t.balances[b].actual == if b == src then Max(s.balances[b].actual - q, 0.0) else s.balances[b].actual)
            && (|t.balances| > |s.balances| ==>
                  AtPacking(s.locations, t.balances[|s.balances|]) && t.balances[|s.balances|].reserved == 0.0)
  {
  }

  lemma PickKeepsStructure(s: State, list: nat, i: nat, q: real)
    requires Structure(s) && Pickable(s, list, i, q)
    ensures Structure(Pick(s, list, i, q))
  {
    var t := Pick(s, list, i, q);
    forall b | 0 <= b < |t.balances| ensures RowFits(t.locations, t.balances[b]) {
      if b < |s.balances| {
        PickedRows(s, list, i, q, b);
      } else {
        PickedRows(s, list, i, q, s.lines[i].balance.value);
      }
    }
    forall j | 0 <= j < |t.lines| ensures LineFits(t.locations, t.balances, |t.lists|, t.lines[j]) {
      if s.lines[j].balance.Some? && s.lines[j].alloc > 0.0 {
        PickedRows(s, list, i, q, s.lines[j].balance.value);
      }
    }
  }

  lemma PickKeepsReservedAt(s: State, list: nat, i: nat, q: real, b: nat)
    requires Structure(s) && Reservations(s) && Pickable(s, list, i, q) && b < |Pick(s, list, i, q).balances|
    ensures ReservedAt(Pick(s, list, i, q), b)
  {
    var t := Pick(s, list, i, q);
    TotalUpdate(s.lines, i, t.lines[i], OpenOn(b));
    TotalUpdate(s.lines, i, t.lines[i], PositiveOpenOn(b));
    TotalNonNegative(t.lines, PositiveOpenOn(b));
    if b < |s.balances| {
      assert ReservedAt(s, b);
      PickedRows(s, list, i, q, b);
    } else {
      PickedRows(s, list, i, q, s.lines[i].balance.value);
      TotalZero(s.lines, OpenOn(b), |s.lines|);
      TotalZero(s.lines, PositiveOpenOn(b), |s.lines|);
    }
  }

  lemma PickKeepsBoxes(s: State, list: nat, i: nat, q: real)
    requires Packings(s) && Shipments(s) && Pickable(s, list, i, q)
    ensures Packings(Pick(s, list, i, q)) && Shipments(Pick(s, list, i, q))
  {
    var t := Pick(s, list, i, q);
    forall list: nat, item: Item
      ensures PackedOn(t.lines, t.boxes, t.boxItems, list, item)
      ensures ShippedOn(t.lines, t.boxes, t.boxItems, t.ledger, t.reversals, list, item)
    {
      assert PackedAt(s, list, item) && ShippedAt(s, list, item);
      TotalUpdate(s.lines, i, t.lines[i], PickedOf(list, item));
      TotalUpdate(s.lines, i, t.lines[i], PackedOf(list, item));
      TotalUpdate(s.lines, i, t.lines[i], ConsumedOf(list, item));
    }
  }

  lemma PickTotals(s: State, list: nat, i: nat, q: real, item: Item)
    requires Pickable(s, list, i, q) && 0.0 <= s.balances[s.lines[i].balance.value].reserved
    ensures var t, b := Pick(s, list, i, q), s.balances[s.lines[i].balance.value];
            && Total(t.balances, ActualOf(item)) == Total(s.balances, ActualOf(item))
                 + (if item == b.item then Max(q - b.actual, 0.0) else 0.0)
            && Unbacked(t, item) == Unbacked(s, item) + (if item == b.item then Max(q - b.reserved, 0.0) else 0.0)
  {
    var t, src := Pick(s, list, i, q), s.lines[i].balance.value;
    var taken := ConsumeReserved(s.balances, src, q);
    TotalUpdate(s.balances, src, taken[src], ActualOf(item));
    TotalUpdate(s.balances, src, taken[src], ReservedOf(item));
    AdjustTotals(taken, s.lines[i].item, s.lists[list].packing.value, q, item);
    TotalUpdate(s.lines, i, t.lines[i], OpenOf(item));
  }

  lemma PickKeepsDrift(s0: State, s: State, list: nat, i: nat, q: real)
    requires Structure(s) && Drift(s0, s) && Pickable(s, list, i, q)
    ensures Drift(s0, Pick(s, list, i, q))
  {
    var t, src := Pick(s, list, i, q), s.lines[i].balance.value;
    forall item: Item ensures DriftOn(s0.balances, t.balances, t.lines, t.ledger, item) {
      assert DriftAt(s0, s, item);
      PickTotals(s, list, i, q, item);
    }
  }

  lemma PickKeeps(s0: State, s: State, input: PickInput)
    requires Inv(s0, s) && ConfirmPick(s, input).Ok?
    ensures Inv(s0, ConfirmPick(s, input).value)
  {
    CheckedIsPickable(s, input);
    var i, q := CheckPick(s, input).value, PickQuantity(input);
    var t := Pick(s, input.list, i, q);
    PickKeepsStructure(s, input.list, i, q);
    forall b: nat | b < |t.balances| ensures ReservedOn(t.balances, t.lines, b) {
      PickKeepsReservedAt(s, input.list, i, q, b);
    }
    PickKeepsBoxes(s, input.list, i, q);
    PickKeepsDrift(s0, s, input.list, i, q);
  }

  /** A pick conserves the total stock exactly when the source row holds the picked quantity. */
  lemma PickConservesIff(s: State, input: PickInput)
    requires Structure(s) && ConfirmPick(s, input).Ok?
    ensures var l, t := s.lines[CheckPick(s, input).value], ConfirmPick(s, input).value;
            && l.balance.Some? && l.balance.value < |s.balances|
            && ((forall item: Item :: Total(t.balances, ActualOf(item)) == Total(s.balances, ActualOf(item)))
                <==> PickQuantity(input) <= s.balances[l.balance.value].actual)
  {
    CheckedIsPickable(s, input);
    var i, q := CheckPick(s, input).value, PickQuantity(input);
    forall item: Item {
      PickTotals(s, input.list, i, q, item);
    }
    var mine := s.balances[s.lines[i].balance.value].item;
    assert Total(ConfirmPick(s, input).value.balances, ActualOf(mine)) == Total(s.balances, ActualOf(mine)) <==>
           q <= s.balances[s.lines[i].balance.value].actual;
  }

  /** A pick from a row whose reservation matches its open lines leaves it matching them exactly when no
      more is picked than the row has reserved. */
  lemma PickKeepsReservationIff(s: State, input: PickInput)
    requires Structure(s) && ConfirmPick(s, input).Ok?
    ensures var b := s.lines[CheckPick(s, input).value].balance; b.Some? && b.value < |s.balances|
    ensures var b, t := s.lines[CheckPick(s, input).value].balance.value, ConfirmPick(s, input).value;
            b < |t.balances| && (s.balances[b].reserved == Total(s.lines, OpenOn(b)) ==>
              (t.balances[b].reserved == Total(t.lines, OpenOn(b)) <==> PickQuantity(input) <= s.balances[b].reserved))
  {
    CheckedIsPickable(s, input);
    var i, q := CheckPick(s, input).value, PickQuantity(input);
    var b, t := s.lines[i].balance.value, Pick(s, input.list, i, q);
    PickedRows(s, input.list, i, q, b);
    TotalUpdate(s.lines, i, t.lines[i], OpenOn(b));
  }
}
