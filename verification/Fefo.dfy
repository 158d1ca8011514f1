/** First-expired-first-out allocation: which rows are candidates, in what order, and what the
    allocation of one demand line does to the tables. */
module Fefo {
  import opened Wrappers
  import opened Sums
  import opened Greedy
  import opened OutboundTables

  function Available(b: Balance): real { b.actual - b.reserved }

  predicate Allocatable(locations: seq<Location>, b: Balance, warehouse: nat, item: Item) {
    && b.item == item
    && b.location < |locations|
    && locations[b.location].warehouse == warehouse
    && !locations[b.location].disabled
    && (locations[b.location].kind == Storage || locations[b.location].kind == PickFace)
    && Available(b) > 0.0
  }

  /** Expiry first, rows without one last, then the row id. */
  predicate Before(balances: seq<Balance>, a: nat, b: nat)
    requires a < |balances| && b < |balances|
  {
    var x, y := balances[a].expiry, balances[b].expiry;
    if x == y then a < b
    else if x.None? then false
    else if y.None? then true
    else x.value < y.value
  }

  ghost predicate InOrder(balances: seq<Balance>, ids: seq<nat>) {
    && (forall i :: 0 <= i < |ids| ==> ids[i] < |balances|)
    && (forall i, j :: 0 <= i < j < |ids| ==> Before(balances, ids[i], ids[j]))
  }

  function Insert(balances: seq<Balance>, ids: seq<nat>, id: nat): (r: seq<nat>)
    requires InOrder(balances, ids) && id < |balances| && id !in ids
    ensures InOrder(balances, r)
    ensures forall x: nat :: x in r <==> x in ids || x == id
  {
    if |ids| == 0 then [id]
    else
      var n := |ids| - 1;
      assert ids == ids[..n] + [ids[n]];
      if Before(balances, ids[n], id) then
        assert forall i :: 0 <= i < n ==> Before(balances, ids[i], ids[n]);
        ids + [id]
      else
        var r := Insert(balances, ids[..n], id);
        assert forall i :: 0 <= i < |r| ==> Before(balances, r[i], ids[n]) by {
          forall i | 0 <= i < |r| ensures Before(balances, r[i], ids[n]) {
            assert r[i] in r;
            if r[i] != id {
              var j :| 0 <= j < n && ids[j] == r[i];
            }
          }
        }
        r + [ids[n]]
  }

  function CandidatesBelow(
    locations: seq<Location>, balances: seq<Balance>, warehouse: nat, item: Item, n: nat): (r: seq<nat>)
    requires n <= |balances|
    ensures InOrder(balances, r)
    ensures forall x: nat :: x in r <==> x < n && Allocatable(locations, balances[x], warehouse, item)
  {
    if n == 0 then []
    else
      var r := CandidatesBelow(locations, balances, warehouse, item, n - 1);
      if Allocatable(locations, balances[n - 1], warehouse, item) then Insert(balances, r, n - 1) else r
  }

  /** Rows that can be drawn on one after another: present, distinct and with something available. */
  ghost predicate Drawable(balances: seq<Balance>, ids: seq<nat>) {
    && (forall i :: 0 <= i < |ids| ==> ids[i] < |balances| && Available(balances[ids[i]]) > 0.0)
    && (forall i, j :: 0 <= i < j < |ids| ==> ids[i] != ids[j])
  }

  /** The rows an allocation for a list may draw on, in FEFO order. */
  function CandidatesFor(s: State, list: nat, item: Item): (r: seq<nat>)
    requires list < |s.lists|
    ensures Drawable(s.balances, r)
    ensures forall i :: 0 <= i < |r| ==> s.balances[r[i]].item == item
  {
    var r := CandidatesBelow(s.locations, s.balances, s.lists[list].warehouse, item, |s.balances|);
    assert forall i :: 0 <= i < |r| ==> r[i] in r;
    assert forall i, j :: 0 <= i < j < |r| ==> Before(s.balances, r[i], r[j]);
    r
  }

  /** The candidates are exactly the allocatable rows, in order of expiry and then of id. */
  lemma CandidatesExact(s: State, list: nat, item: Item)
    requires list < |s.lists|
    ensures InOrder(s.balances, CandidatesFor(s, list, item))
    ensures forall x: nat :: x in CandidatesFor(s, list, item) <==>
              x < |s.balances| && Allocatable(s.locations, s.balances[x], s.lists[list].warehouse, item)
  {
  }

  function AvailableAt(balances: seq<Balance>): nat -> real {
    (id: nat) => if id < |balances| then Available(balances[id]) else 0.0
  }

  /** The rows after the first `k` greedy reservations; `room` is what was available at the start. */
  function ReservedRows(
    balances: seq<Balance>, cands: seq<nat>, room: nat -> real, need: real, k: nat): (r: seq<Balance>)
    requires k <= |cands| && forall i :: 0 <= i < |cands| ==> cands[i] < |balances|
    ensures |r| == |balances|
  {
    if k == 0 then balances
    else
      var r := ReservedRows(balances, cands, room, need, k - 1);
      var row := r[cands[k - 1]];
      r[cands[k - 1] := row.(reserved := row.reserved + Take(cands, k - 1, room, need))]
  }

  function SliceLine(s: State, list: nat, c: nat, q: real): Line
    requires c < |s.balances|
  {
    var b := s.balances[c];
    Line(list, b.item, q, q, Some(c), if b.location < |s.locations| then Some(s.locations[b.location].code) else None,
         b.expiry, 0.0, 0.0, 0.0, Pending)
  }

  /** The pick lines written for the first `k` candidates; none once nothing remains. */
  function SliceLines(s: State, list: nat, cands: seq<nat>, need: real, k: nat): seq<Line>
    requires k <= |cands| && forall i :: 0 <= i < |cands| ==> cands[i] < |s.balances|
  {
    if k == 0 then []
    else
      var r := SliceLines(s, list, cands, need, k - 1);
      var q := Take(cands, k - 1, AvailableAt(s.balances), need);
      if q > 0.0 then r + [SliceLine(s, list, cands[k - 1], q)] else r
  }

  function ShortageLine(list: nat, item: Item, q: real): Line {
    Line(list, item, q, 0.0, None, None, None, 0.0, 0.0, 0.0, Shortage)
  }

  /** The rows written for one demand, with or without a row for the part that could not be met. */
  function NewLines(s: State, list: nat, item: Item, need: real, shortageRow: bool): seq<Line>
    requires list < |s.lists|
  {
    var cands := CandidatesFor(s, list, item);
    var slices := SliceLines(s, list, cands, need, |cands|);
    var short := Remaining(cands, |cands|, AvailableAt(s.balances), need);
    if shortageRow && short > 0.0 then slices + [ShortageLine(list, item, short)] else slices
  }

  /** What one demand line does to the tables. */
  function Allocate(s: State, list: nat, item: Item, need: real, shortageRow: bool): State
    requires list < |s.lists|
  {
    if need <= 0.0 then s
    else
      var cands := CandidatesFor(s, list, item);
      s.(balances := ReservedRows(s.balances, cands, AvailableAt(s.balances), need, |cands|),
         lines := s.lines + NewLines(s, list, item, need, shortageRow))
  }

  /** After `k` slices, candidate `i` holds its own greedy share and no other, so the refusal in the
      reservation of slice `k` cannot fire. */
  lemma {:induction false} SliceReserved(
    balances: seq<Balance>, cands: seq<nat>, room: nat -> real, need: real, k: nat, i: nat)
    requires Drawable(balances, cands) && k <= |cands| && i < |cands|
    ensures var share := Take(cands, i, room, need);
            ReservedRows(balances, cands, room, need, k)[cands[i]]
              == if i < k then balances[cands[i]].(reserved := balances[cands[i]].reserved + share)
                  else balances[cands[i]]
  {
    if k > 0 {
      SliceReserved(balances, cands, room, need, k - 1, i);
    }
  }

  function OrderedAny(): Line -> real { (l: Line) => l.ordered }

  function AllocAny(): Line -> real { (l: Line) => l.alloc }

  /** Slices carry equal ordered and allocated quantities, summing to the greedy draw. */
  lemma {:induction false} SliceLinesTotal(s: State, list: nat, cands: seq<nat>, need: real, k: nat, f: Line -> real)
    requires need > 0.0 && Drawable(s.balances, cands) && k <= |cands|
    requires f == OrderedAny() || f == AllocAny()
    ensures Total(SliceLines(s, list, cands, need, k), f) == Min(need, Sum(cands, AvailableAt(s.balances), k))
  {
    if k > 0 {
      var room := AvailableAt(s.balances);
      SliceLinesTotal(s, list, cands, need, k - 1, f);
      var q := Take(cands, k - 1, room, need);
      TakeIsGrowth(cands, k - 1, room, need);
      var line := SliceLine(s, list, cands[k - 1], q);
      assert f(line) == q;
      TotalPush(SliceLines(s, list, cands, need, k - 1), line, f);
    }
  }

  lemma {:induction false} ReservedRowsTotal(
    balances: seq<Balance>, item: Item, cands: seq<nat>, room: nat -> real, need: real, k: nat)
    requires need > 0.0 && Drawable(balances, cands) && k <= |cands|
    requires forall i :: 0 <= i < |cands| ==> balances[cands[i]].item == item && 0.0 <= room(cands[i])
    ensures Total(ReservedRows(balances, cands, room, need, k), ReservedOf(item))
              == Total(balances, ReservedOf(item)) + Min(need, Sum(cands, room, k))
  {
    if k > 0 {
      ReservedRowsTotal(balances, item, cands, room, need, k - 1);
      var rows := ReservedRows(balances, cands, room, need, k - 1);
      var c, q := cands[k - 1], Take(cands, k - 1, room, need);
      TakeIsGrowth(cands, k - 1, room, need);
      var row := rows[c].(reserved := rows[c].reserved + q);
      assert rows[c].item == item by {
        SliceReserved(balances, cands, room, need, k - 1, k - 1);
      }
      TotalUpdate(rows, c, row, ReservedOf(item));
    }
  }

  lemma AllocatedLinesTotal(lines: seq<Line>, slices: seq<Line>, short: Line, f: Line -> real)
    ensures Total(lines + slices, f) == Total(lines, f) + Total(slices, f)
    ensures Total(lines + slices + [short], f) == Total(lines, f) + Total(slices, f) + f(short)
  {
    TotalAppend(lines, slices, f);
    TotalPush(lines + slices, short, f);
  }

  /** The allocation reserves the smaller of the need and what is available, writes lines whose
      ordered quantities sum to the need, and adds one shortage row exactly when stock falls short. */
  lemma AllocationTotals(s: State, list: nat, item: Item, need: real)
    requires list < |s.lists| && need > 0.0
    ensures var available := Total(CandidatesFor(s, list, item), AvailableAt(s.balances));
            var t := Allocate(s, list, item, need, true);
            && Total(t.balances, ReservedOf(item)) == Total(s.balances, ReservedOf(item)) + Min(need, available)
            && Total(t.lines, AllocAny()) == Total(s.lines, AllocAny()) + Min(need, available)
            && Total(t.lines, OrderedAny()) == Total(s.lines, OrderedAny()) + need
            && t.lines == Allocate(s, list, item, need, false).lines
                        + (if need > available then [ShortageLine(list, item, need - available)] else [])
  {
    var cands := CandidatesFor(s, list, item);
    var n := |cands|;
    ReservedRowsTotal(s.balances, item, cands, AvailableAt(s.balances), need, n);
    var slices := SliceLines(s, list, cands, need, n);
    var short := Remaining(cands, n, AvailableAt(s.balances), need);
    assert s.lines + (slices + [ShortageLine(list, item, short)])
           == s.lines + slices + [ShortageLine(list, item, short)];
    assert s.lines + slices + [] == s.lines + slices;
    AllocatedLinesTotal(s.lines, slices, ShortageLine(list, item, short), OrderedAny());
    AllocatedLinesTotal(s.lines, slices, ShortageLine(list, item, short), AllocAny());
    SliceLinesTotal(s, list, cands, need, n, OrderedAny());
    SliceLinesTotal(s, list, cands, need, n, AllocAny());
  }

  /** What each candidate gave up between two states. */
  function Drawn(s: State, t: State, cands: seq<nat>): (r: seq<real>)
    requires |t.balances| == |s.balances| && forall i :: 0 <= i < |cands| ==> cands[i] < |s.balances|
    ensures |r| == |cands|
  {
    seq(|cands|, (i: int) requires 0 <= i < |cands| => t.balances[cands[i]].reserved - s.balances[cands[i]].reserved)
  }

  /** FEFO optimality: whatever plan would also meet at most `need` from the same rows, the allocation
      takes at least as much from every earliest-expiring group of rows. */
  lemma FefoOptimal(s: State, list: nat, item: Item, need: real, plan: seq<real>, k: nat, shortageRow: bool)
    requires list < |s.lists| && need > 0.0
    requires k <= |CandidatesFor(s, list, item)|
    requires Feasible(CandidatesFor(s, list, item), AvailableAt(s.balances), need, plan)
    ensures var cands := CandidatesFor(s, list, item);
            var drawn := Drawn(s, Allocate(s, list, item, need, shortageRow), cands);
            && Sum(plan, SAME, k) <= Sum(drawn, SAME, k)
            && Feasible(cands, AvailableAt(s.balances), need, drawn)
  {
    var cands, room := CandidatesFor(s, list, item), AvailableAt(s.balances);
    var drawn := Drawn(s, Allocate(s, list, item, need, shortageRow), cands);
    forall i | 0 <= i < |cands| ensures drawn[i] == Takes(cands, room, need)[i] {
      SliceReserved(s.balances, cands, room, need, |cands|, i);
    }
    assert drawn == Takes(cands, room, need);
    GreedyIsFeasible(cands, room, need);
    GreedyIsOptimal(cands, room, need, plan, k);
  }
}
