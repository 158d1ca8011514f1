/** Allocation keeps the outbound invariants: each reserved slice is matched by an open pick line. */
module AllocateKeeps {
  import opened Sums
  import opened Greedy
  import opened OutboundTables
  import opened Fefo
  import opened OutboundInvariant

  function WithLine(s: State, l: Line): State { s.(lines := s.lines + [l]) }

  function WithReserved(s: State, c: nat, q: real): State
    requires c < |s.balances|
  {
    s.(balances := s.balances[c := s.balances[c].(reserved := s.balances[c].reserved + q)])
  }

  /** A fresh line with nothing picked leaves every packing and shipping sum alone. */
  lemma NewLineKeepsBoxes(s: State, l: Line)
    requires Packings(s) && Shipments(s)
    requires l.picked == l.packed == l.consumed == 0.0
    ensures Packings(WithLine(s, l)) && Shipments(WithLine(s, l))
  {
    forall list: nat, item: Item
      ensures PackedOn(WithLine(s, l).lines, WithLine(s, l).boxes, WithLine(s, l).boxItems, list, item)
      ensures ShippedOn(WithLine(s, l).lines, WithLine(s, l).boxes, WithLine(s, l).boxItems, WithLine(s, l).ledger,
                        WithLine(s, l).reversals, list, item)
    {
      assert PackedAt(s, list, item) && ShippedAt(s, list, item);
      TotalPush(s.lines, l, PickedOf(list, item));
      TotalPush(s.lines, l, PackedOf(list, item));
      TotalPush(s.lines, l, ConsumedOf(list, item));
    }
  }

  lemma ShortageKeeps(s0: State, s: State, list: nat, item: Item, q: real)
    requires Inv(s0, s) && list < |s.lists|
    ensures Inv(s0, WithLine(s, ShortageLine(list, item, q)))
  {
    var l := ShortageLine(list, item, q);
    var t := WithLine(s, l);
    NewLineKeepsBoxes(s, l);
    forall b: nat | b < |t.balances| ensures ReservedOn(t.balances, t.lines, b) {
      assert ReservedAt(s, b);
      TotalPush(s.lines, l, OpenOn(b));
      TotalPush(s.lines, l, PositiveOpenOn(b));
    }
    forall other: Item ensures DriftOn(s0.balances, t.balances, t.lines, t.ledger, other) {
      assert DriftAt(s0, s, other);
      TotalPush(s.lines, l, OpenOf(other));
    }
    assert Structure(t);
  }

  lemma SliceKeepsReservations(s: State, list: nat, c: nat, q: real)
    requires Reservations(s) && c < |s.balances| && q > 0.0
    ensures Reservations(WithReserved(WithLine(s, SliceLine(s, list, c, q)), c, q))
  {
    var l := SliceLine(s, list, c, q);
    var t := WithReserved(WithLine(s, l), c, q);
    forall b: nat | b < |t.balances| ensures ReservedOn(t.balances, t.lines, b) {
      assert ReservedAt(s, b);
      TotalPush(s.lines, l, OpenOn(b));
      TotalPush(s.lines, l, PositiveOpenOn(b));
    }
  }

  lemma SliceKeepsDrift(s0: State, s: State, list: nat, c: nat, q: real)
    requires Drift(s0, s) && c < |s.balances| && q > 0.0
    ensures Drift(s0, WithReserved(WithLine(s, SliceLine(s, list, c, q)), c, q))
  {
    var l := SliceLine(s, list, c, q);
    var t := WithReserved(WithLine(s, l), c, q);
    forall item: Item ensures DriftOn(s0.balances, t.balances, t.lines, t.ledger, item) {
      assert DriftAt(s0, s, item);
      TotalPush(s.lines, l, OpenOf(item));
      TotalUpdate(s.balances, c, t.balances[c], ReservedOf(item));
      TotalUpdate(s.balances, c, t.balances[c], ActualOf(item));
    }
  }

  lemma SliceKeepsStructure(s: State, list: nat, c: nat, q: real)
    requires Structure(s) && c < |s.balances| && list < |s.lists| && q > 0.0
    requires !AtPacking(s.locations, s.balances[c]) && q <= Available(s.balances[c])
    ensures Structure(WithReserved(WithLine(s, SliceLine(s, list, c, q)), c, q))
  {
  }

  lemma SliceKeeps(s0: State, s: State, list: nat, c: nat, q: real)
    requires Inv(s0, s) && c < |s.balances| && list < |s.lists| && q > 0.0
    requires !AtPacking(s.locations, s.balances[c]) && q <= Available(s.balances[c])
    ensures Inv(s0, WithReserved(WithLine(s, SliceLine(s, list, c, q)), c, q))
  {
    var l := SliceLine(s, list, c, q);
    var t := WithReserved(WithLine(s, l), c, q);
    SliceKeepsStructure(s, list, c, q);
    SliceKeepsReservations(s, list, c, q);
    SliceKeepsDrift(s0, s, list, c, q);
    NewLineKeepsBoxes(s, l);
  }

  function AfterSlices(s: State, list: nat, cands: seq<nat>, need: real, k: nat): State
    requires k <= |cands| && forall i :: 0 <= i < |cands| ==> cands[i] < |s.balances|
  {
    s.(balances := ReservedRows(s.balances, cands, AvailableAt(s.balances), need, k),
       lines := s.lines + SliceLines(s, list, cands, need, k))
  }

  /** The `k`th slice as one reservation and one new line on the state before it. */
  lemma NextSlice(s: State, list: nat, cands: seq<nat>, need: real, k: nat)
    requires need > 0.0 && k < |cands| && Drawable(s.balances, cands)
    ensures var t, c, q := AfterSlices(s, list, cands, need, k), cands[k],
            Take(cands, k, AvailableAt(s.balances), need);
            && t.balances[c] == s.balances[c] && q <= Available(t.balances[c])
            && AfterSlices(s, list, cands, need, k + 1)
                 == if q > 0.0 then WithReserved(WithLine(t, SliceLine(t, list, c, q)), c, q) else t
  {
    SliceReserved(s.balances, cands, AvailableAt(s.balances), need, k, k);
    RemainingStep(cands, k, AvailableAt(s.balances), need);
  }

  lemma NextSliceKeeps(
    s0: State, s: State, list: nat, cands: seq<nat>, need: real, k: nat, t: State, u: State)
    requires list < |s.lists| && need > 0.0 && k < |cands| && Drawable(s.balances, cands)
    requires !AtPacking(s.locations, s.balances[cands[k]])
    requires t == AfterSlices(s, list, cands, need, k) && u == AfterSlices(s, list, cands, need, k + 1)
    requires Inv(s0, t)
    ensures Inv(s0, u)
  {
    NextSlice(s, list, cands, need, k);
    var c, q := cands[k], Take(cands, k, AvailableAt(s.balances), need);
    if q > 0.0 {
      SliceKeeps(s0, t, list, c, q);
    }
  }

  lemma {:induction false} SlicesKeep(s0: State, s: State, list: nat, cands: seq<nat>, need: real, k: nat)
    requires list < |s.lists| && need > 0.0 && k <= |cands| && Drawable(s.balances, cands)
    requires forall i :: 0 <= i < |cands| ==> !AtPacking(s.locations, s.balances[cands[i]])
    requires Inv(s0, AfterSlices(s, list, cands, need, 0))
    ensures Inv(s0, AfterSlices(s, list, cands, need, k))
  {
    if k > 0 {
      SlicesKeep(s0, s, list, cands, need, k - 1);
      var t, u := AfterSlices(s, list, cands, need, k - 1), AfterSlices(s, list, cands, need, k);
      NextSliceKeeps(s0, s, list, cands, need, k - 1, t, u);
    }
  }

  lemma AllocateKeeps(s0: State, s: State, list: nat, item: Item, need: real, shortageRow: bool)
    requires Inv(s0, s) && list < |s.lists|
    ensures Inv(s0, Allocate(s, list, item, need, shortageRow))
  {
    if need > 0.0 {
      var cands := CandidatesFor(s, list, item);
      CandidatesExact(s, list, item);
      assert AfterSlices(s, list, cands, need, 0) == s;
      SlicesKeep(s0, s, list, cands, need, |cands|);
      var t := AfterSlices(s, list, cands, need, |cands|);
      var short := Remaining(cands, |cands|, AvailableAt(s.balances), need);
      if shortageRow && short > 0.0 {
        ShortageKeeps(s0, t, list, item, short);
        assert Allocate(s, list, item, need, shortageRow) == WithLine(t, ShortageLine(list, item, short));
      }
    }
  }
}
