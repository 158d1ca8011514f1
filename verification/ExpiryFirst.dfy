/** First expired, first out, read off the tables: which rows an allocation reserves on, how much, and what
    pick lines it writes, in terms of the rows' own dates. */
module ExpiryFirst {
  import opened Wrappers
  import opened Sums
  import opened Greedy
  import opened OutboundTables
  import opened Fefo
  import opened CounterSale
  import opened Reconcile

  /** What an allocation for a list may take of an item from a row. */
  function FreeOn(s: State, list: nat, item: Item): Balance -> real
    requires list < |s.lists|
  {
    (b: Balance) => if StoredAt(s, b, item, s.lists[list].warehouse) then Max(b.actual - b.reserved, 0.0) else 0.0
  }

  /** How far each row's reservation has risen. */
  function Risen(s: State, t: State): (r: seq<real>)
    requires |t.balances| == |s.balances|
    ensures |r| == |s.balances|
  {
    seq(|s.balances|, (i: int) requires 0 <= i < |s.balances| => t.balances[i].reserved - s.balances[i].reserved)
  }

  /** A row with an earlier date, or with one at all where the other has none. */
  predicate ExpiresSooner(a: Balance, b: Balance) {
    a.expiry.Some? && (b.expiry.None? || a.expiry.value < b.expiry.value)
  }

  lemma AllocatableIs(s: State, list: nat, item: Item, b: Balance)
    requires list < |s.lists|
    ensures Allocatable(s.locations, b, s.lists[list].warehouse, item) <==> 0.0 < FreeOn(s, list, item)(b)
    ensures Allocatable(s.locations, b, s.lists[list].warehouse, item) ==> FreeOn(s, list, item)(b) == Available(b)
  {
  }

  /** The position of a row among the candidates. */
  lemma StandsAt(s: State, list: nat, item: Item, i: nat) returns (k: nat)
    requires list < |s.lists| && i < |s.balances| && 0.0 < FreeOn(s, list, item)(s.balances[i])
    ensures k < |CandidatesFor(s, list, item)| && CandidatesFor(s, list, item)[k] == i
  {
    AllocatableIs(s, list, item, s.balances[i]);
    CandidatesExact(s, list, item);
    k :| 0 <= k < |CandidatesFor(s, list, item)| && CandidatesFor(s, list, item)[k] == i;
  }

  lemma {:induction false} OthersUntouched(
    balances: seq<Balance>, cands: seq<nat>, room: nat -> real, need: real, k: nat, i: nat)
    requires k <= |cands| && (forall c :: 0 <= c < |cands| ==> cands[c] < |balances|) && i < |balances| && i !in cands
    ensures ReservedRows(balances, cands, room, need, k)[i] == balances[i]
  {
    if k > 0 {
      OthersUntouched(balances, cands, room, need, k - 1, i);
    }
  }

  /** A row that can give something gets its greedy share. */
  lemma ShareOf(s: State, list: nat, item: Item, need: real, shortageRow: bool, k: nat)
    requires list < |s.lists| && need > 0.0 && k < |CandidatesFor(s, list, item)|
    ensures var cands, room, t := CandidatesFor(s, list, item), AvailableAt(s.balances),
                Allocate(s, list, item, need, shortageRow);
            && |t.balances| == |s.balances| && room(cands[k]) == FreeOn(s, list, item)(s.balances[cands[k]]) > 0.0
            && t.balances[cands[k]]
               == s.balances[cands[k]].(reserved := s.balances[cands[k]].reserved + Take(cands, k, room, need))
            && Risen(s, t)[cands[k]] == Take(cands, k, room, need)
            && 0.0 <= Take(cands, k, room, need) <= room(cands[k])
  {
    var cands, room := CandidatesFor(s, list, item), AvailableAt(s.balances);
    assert cands[k] in cands;
    CandidatesExact(s, list, item);
    AllocatableIs(s, list, item, s.balances[cands[k]]);
    SliceReserved(s.balances, cands, room, need, |cands|, k);
    RemainingStep(cands, k, room, need);
  }

  /** An allocation changes nothing of a row but its reservation, which rises by no more than the row can give:
      rows of another item, at another warehouse, at a disabled location or one that is neither storage nor
      pick face give nothing. */
  lemma RowsRise(s: State, list: nat, item: Item, need: real, shortageRow: bool, i: nat)
    requires list < |s.lists| && i < |s.balances|
    ensures var t, b := Allocate(s, list, item, need, shortageRow), s.balances[i];
            && |t.balances| == |s.balances|
            && t.balances[i] == b.(reserved := b.reserved + Risen(s, t)[i])
            && 0.0 <= Risen(s, t)[i] <= FreeOn(s, list, item)(b)
  {
    if need > 0.0 {
      var cands := CandidatesFor(s, list, item);
      AllocatableIs(s, list, item, s.balances[i]);
      if 0.0 < FreeOn(s, list, item)(s.balances[i]) {
        var k := StandsAt(s, list, item, i);
        ShareOf(s, list, item, need, shortageRow, k);
      } else {
        CandidatesExact(s, list, item);
        assert i !in cands;
        OthersUntouched(s.balances, cands, AvailableAt(s.balances), need, |cands|, i);
      }
    }
  }

  lemma RoomsAreFree(s: State, list: nat, item: Item)
    requires list < |s.lists|
    ensures forall c :: 0 <= c < |CandidatesFor(s, list, item)| ==>
              0.0 <= AvailableAt(s.balances)(CandidatesFor(s, list, item)[c])
  {
  }

  lemma StandsBefore(s: State, list: nat, item: Item, k: nat, m: nat)
    requires list < |s.lists| && k < |CandidatesFor(s, list, item)| && m < |CandidatesFor(s, list, item)|
    requires var i, j := CandidatesFor(s, list, item)[k], CandidatesFor(s, list, item)[m];
             ExpiresSooner(s.balances[i], s.balances[j])
             || (s.balances[i].expiry == s.balances[j].expiry && i < j)
    ensures k < m
  {
    CandidatesExact(s, list, item);
  }

  /** Nothing is reserved on a row while one that expires sooner, or as soon and has a lower id, can still give:
      if the later one's reservation rose, the sooner one has nothing free left. */
  lemma SoonerIsUsedUp(s: State, list: nat, item: Item, need: real, shortageRow: bool, i: nat, j: nat)
    requires list < |s.lists| && i < |s.balances| && j < |s.balances|
    requires 0.0 < FreeOn(s, list, item)(s.balances[i])
    requires ExpiresSooner(s.balances[i], s.balances[j])
             || (s.balances[i].expiry == s.balances[j].expiry && i < j)
    ensures var t := Allocate(s, list, item, need, shortageRow);
            |t.balances| == |s.balances|
            && (s.balances[j].reserved < t.balances[j].reserved ==> t.balances[i].reserved == t.balances[i].actual)
  {
    RowsRise(s, list, item, need, shortageRow, j);
    var t := Allocate(s, list, item, need, shortageRow);
    if s.balances[j].reserved < t.balances[j].reserved {
      var cands, room := CandidatesFor(s, list, item), AvailableAt(s.balances);
      var k := StandsAt(s, list, item, i);
      var m := StandsAt(s, list, item, j);
      ShareOf(s, list, item, need, shortageRow, k);
      ShareOf(s, list, item, need, shortageRow, m);
      StandsBefore(s, list, item, k, m);
      RoomsAreFree(s, list, item);
      FirstIsFilled(cands, room, need, k, m);
    }
  }

  lemma RisenTotal(s: State, list: nat, item: Item, need: real, shortageRow: bool)
    requires list < |s.lists| && need > 0.0
    ensures |Allocate(s, list, item, need, shortageRow).balances| == |s.balances|
    ensures Total(Risen(s, Allocate(s, list, item, need, shortageRow)), SAME)
            == Min(need, Total(CandidatesFor(s, list, item), AvailableAt(s.balances)))
  {
    var t, cands := Allocate(s, list, item, need, shortageRow), CandidatesFor(s, list, item);
    forall i | 0 <= i < |s.balances|
      ensures ReservedOf(item)(t.balances[i]) == ReservedOf(item)(s.balances[i]) + SAME(Risen(s, t)[i])
    {
      RowsRise(s, list, item, need, shortageRow, i);
    }
    TotalAdd(s.balances, ReservedOf(item), Risen(s, t), SAME, t.balances, ReservedOf(item));
    ReservedRowsTotal(s.balances, item, cands, AvailableAt(s.balances), need, |cands|);
  }

  lemma MeetsNeed(cands: seq<nat>, room: nat -> real, need: real, k: nat)
    requires k < |cands| && forall c :: 0 <= c < |cands| ==> 0.0 <= room(cands[c])
    requires Take(cands, k, room, need) < room(cands[k])
    ensures Min(need, Total(cands, room)) == need
  {
    SumGrows(cands, room, k + 1, |cands|);
  }

  /** While a row can still give something, the whole need has been met. */
  lemma MetUnlessUsedUp(s: State, list: nat, item: Item, need: real, shortageRow: bool, i: nat)
    requires list < |s.lists| && need > 0.0 && i < |s.balances|
    requires |Allocate(s, list, item, need, shortageRow).balances| == |s.balances|
    requires Risen(s, Allocate(s, list, item, need, shortageRow))[i] < FreeOn(s, list, item)(s.balances[i])
    ensures Total(Risen(s, Allocate(s, list, item, need, shortageRow)), SAME) == need
  {
    var cands, room := CandidatesFor(s, list, item), AvailableAt(s.balances);
    RowsRise(s, list, item, need, shortageRow, i);
    var k := StandsAt(s, list, item, i);
    ShareOf(s, list, item, need, shortageRow, k);
    RisenTotal(s, list, item, need, shortageRow);
    RoomsAreFree(s, list, item);
    MeetsNeed(cands, room, need, k);
  }

  /** An allocation reserves the smaller of the need and what its rows can give. */
  lemma AllocationMeets(s: State, list: nat, item: Item, need: real, shortageRow: bool)
    requires list < |s.lists| && need > 0.0
    ensures |Allocate(s, list, item, need, shortageRow).balances| == |s.balances|
    ensures Total(Risen(s, Allocate(s, list, item, need, shortageRow)), SAME)
            == Min(need, Total(s.balances, FreeOn(s, list, item)))
  {
    var t, free := Allocate(s, list, item, need, shortageRow), FreeOn(s, list, item);
    RisenTotal(s, list, item, need, shortageRow);
    forall i | 0 <= i < |s.balances| ensures SAME(Risen(s, t)[i]) <= free(s.balances[i]) {
      RowsRise(s, list, item, need, shortageRow, i);
    }
    TotalLe(Risen(s, t), SAME, s.balances, free);
    if i :| 0 <= i < |s.balances| && Risen(s, t)[i] < free(s.balances[i]) {
      MetUnlessUsedUp(s, list, item, need, shortageRow, i);
    } else {
      TotalSame(Risen(s, t), SAME, s.balances, free);
    }
  }

  // Against any other way of meeting the need

  /** Quantities from the rows, none beyond what its row can give and together no more than the need. */
  ghost predicate IsPlan(s: State, list: nat, item: Item, need: real, plan: seq<real>)
    requires list < |s.lists|
  {
    && |plan| == |s.balances|
    && (forall i :: 0 <= i < |plan| ==> 0.0 <= plan[i] <= FreeOn(s, list, item)(s.balances[i]))
    && Total(plan, SAME) <= need
  }

  predicate ExpiresBy(b: Balance, date: int) { b.expiry.Some? && b.expiry.value <= date }

  /** What a plan takes from the rows that expire by a date. */
  function DueBy(balances: seq<Balance>, plan: seq<real>, date: int): (r: seq<real>)
    requires |plan| == |balances|
    ensures |r| == |plan|
  {
    seq(|plan|, (i: int) requires 0 <= i < |plan| => if ExpiresBy(balances[i], date) then plan[i] else 0.0)
  }

  lemma AllocationIsPlan(s: State, list: nat, item: Item, need: real, shortageRow: bool)
    requires list < |s.lists| && need > 0.0
    ensures |Allocate(s, list, item, need, shortageRow).balances| == |s.balances|
    ensures IsPlan(s, list, item, need, Risen(s, Allocate(s, list, item, need, shortageRow)))
  {
    AllocationMeets(s, list, item, need, shortageRow);
    forall i | 0 <= i < |s.balances| ensures
      0.0 <= Risen(s, Allocate(s, list, item, need, shortageRow))[i] <= FreeOn(s, list, item)(s.balances[i])
    {
      RowsRise(s, list, item, need, shortageRow, i);
    }
  }

  /** Once a row due later is drawn on, every row due by the date is used up. */
  lemma AllDueUsedUp(
    s: State, list: nat, item: Item, need: real, shortageRow: bool, plan: seq<real>, date: int, j: nat)
    requires list < |s.lists| && need > 0.0 && IsPlan(s, list, item, need, plan) && j < |s.balances|
    requires |Allocate(s, list, item, need, shortageRow).balances| == |s.balances|
    requires !ExpiresBy(s.balances[j], date) && 0.0 < Risen(s, Allocate(s, list, item, need, shortageRow))[j]
    ensures Total(DueBy(s.balances, plan, date), SAME)
            <= Total(DueBy(s.balances, Risen(s, Allocate(s, list, item, need, shortageRow)), date), SAME)
  {
    var risen := Risen(s, Allocate(s, list, item, need, shortageRow));
    forall i | 0 <= i < |plan|
      ensures SAME(DueBy(s.balances, plan, date)[i]) <= SAME(DueBy(s.balances, risen, date)[i])
    {
      RowsRise(s, list, item, need, shortageRow, i);
      if ExpiresBy(s.balances[i], date) && 0.0 < FreeOn(s, list, item)(s.balances[i]) {
        SoonerIsUsedUp(s, list, item, need, shortageRow, i, j);
      }
    }
    TotalLe(DueBy(s.balances, plan, date), SAME, DueBy(s.balances, risen, date), SAME);
  }

  lemma AllDrawnIsDue(s: State, list: nat, item: Item, need: real, risen: seq<real>, plan: seq<real>, date: int)
    requires list < |s.lists| && IsPlan(s, list, item, need, plan) && IsPlan(s, list, item, need, risen)
    requires forall j :: 0 <= j < |risen| && !ExpiresBy(s.balances[j], date) ==> risen[j] == 0.0
    requires Total(risen, SAME) == need
             || forall i :: 0 <= i < |risen| ==> risen[i] == FreeOn(s, list, item)(s.balances[i])
    ensures Total(DueBy(s.balances, plan, date), SAME) <= Total(DueBy(s.balances, risen, date), SAME)
  {
    TotalSame(DueBy(s.balances, risen, date), SAME, risen, SAME);
    TotalLe(DueBy(s.balances, plan, date), SAME, plan, SAME);
    if Total(risen, SAME) != need {
      TotalLe(plan, SAME, risen, SAME);
    }
  }

  /** For every date, no plan that meets at most the need from the same rows takes more from those that expire by
      that date than the allocation does, and the allocation is such a plan. */
  lemma FefoByDate(
    s: State, list: nat, item: Item, need: real, shortageRow: bool, plan: seq<real>, date: int)
    requires list < |s.lists| && need > 0.0 && IsPlan(s, list, item, need, plan)
    ensures var t := Allocate(s, list, item, need, shortageRow);
            && |t.balances| == |s.balances| && IsPlan(s, list, item, need, Risen(s, t))
            && Total(DueBy(s.balances, plan, date), SAME) <= Total(DueBy(s.balances, Risen(s, t), date), SAME)
  {
    AllocationIsPlan(s, list, item, need, shortageRow);
    var risen := Risen(s, Allocate(s, list, item, need, shortageRow));
    if j :| 0 <= j < |risen| && !ExpiresBy(s.balances[j], date) && risen[j] != 0.0 {
      AllDueUsedUp(s, list, item, need, shortageRow, plan, date, j);
    } else {
      if i :| 0 <= i < |risen| && risen[i] != FreeOn(s, list, item)(s.balances[i]) {
        MetUnlessUsedUp(s, list, item, need, shortageRow, i);
      }
      AllDrawnIsDue(s, list, item, need, risen, plan, date);
    }
  }

  // The pick lines

  /** The candidates among the first `n` that are drawn on. */
  function DrawnOn(cands: seq<nat>, room: nat -> real, need: real, n: nat): (r: seq<nat>)
    requires n <= |cands|
    ensures forall k :: 0 <= k < |r| ==> r[k] < n && Take(cands, r[k], room, need) > 0.0
  {
    if n == 0 then []
    else if Take(cands, n - 1, room, need) > 0.0 then DrawnOn(cands, room, need, n - 1) + [n - 1]
    else DrawnOn(cands, room, need, n - 1)
  }

  lemma {:induction false} DrawnInOrder(cands: seq<nat>, room: nat -> real, need: real, n: nat, k: nat, m: nat)
    requires n <= |cands| && k < m < |DrawnOn(cands, room, need, n)|
    ensures DrawnOn(cands, room, need, n)[k] < DrawnOn(cands, room, need, n)[m]
  {
    if m < |DrawnOn(cands, room, need, n - 1)| {
      DrawnInOrder(cands, room, need, n - 1, k, m);
    }
  }

  lemma {:induction false} AllDrawn(cands: seq<nat>, room: nat -> real, need: real, n: nat, c: nat) returns (k: nat)
    requires c < n <= |cands| && Take(cands, c, room, need) > 0.0
    ensures k < |DrawnOn(cands, room, need, n)| && DrawnOn(cands, room, need, n)[k] == c
  {
    if c < n - 1 {
      k := AllDrawn(cands, room, need, n - 1, c);
    } else {
      k := |DrawnOn(cands, room, need, n)| - 1;
    }
  }

  lemma LastSlice(s: State, list: nat, cands: seq<nat>, need: real, n: nat)
    requires 0 < n <= |cands| && forall c :: 0 <= c < |cands| ==> cands[c] < |s.balances|
    ensures var q := Take(cands, n - 1, AvailableAt(s.balances), need);
            && SliceLines(s, list, cands, need, n) == SliceLines(s, list, cands, need, n - 1)
               + (if q > 0.0 then [SliceLine(s, list, cands[n - 1], q)] else [])
            && DrawnOn(cands, AvailableAt(s.balances), need, n) == DrawnOn(cands, AvailableAt(s.balances), need, n - 1)
               + (if q > 0.0 then [n - 1] else [])
  {
  }

  lemma {:induction false} SlicesCount(s: State, list: nat, cands: seq<nat>, need: real, n: nat)
    requires n <= |cands| && forall c :: 0 <= c < |cands| ==> cands[c] < |s.balances|
    ensures |SliceLines(s, list, cands, need, n)| == |DrawnOn(cands, AvailableAt(s.balances), need, n)|
  {
    if n > 0 {
      SlicesCount(s, list, cands, need, n - 1);
      LastSlice(s, list, cands, need, n);
    }
  }

  lemma {:induction false} SliceIs(s: State, list: nat, cands: seq<nat>, need: real, n: nat, k: nat)
    requires n <= |cands| && forall c :: 0 <= c < |cands| ==> cands[c] < |s.balances|
    requires k < |SliceLines(s, list, cands, need, n)| == |DrawnOn(cands, AvailableAt(s.balances), need, n)|
    ensures var c := DrawnOn(cands, AvailableAt(s.balances), need, n)[k];
            SliceLines(s, list, cands, need, n)[k]
              == SliceLine(s, list, cands[c], Take(cands, c, AvailableAt(s.balances), need))
  {
    SlicesCount(s, list, cands, need, n - 1);
    LastSlice(s, list, cands, need, n);
    if k < |SliceLines(s, list, cands, need, n - 1)| {
      SliceIs(s, list, cands, need, n - 1, k);
    }
  }

  /** A line for what was reserved on a row: quantity, place and date are the row's. */
  ghost predicate DrawsOn(s: State, list: nat, item: Item, risen: seq<real>, l: Line, b: nat)
    requires |risen| == |s.balances|
  {
    && b < |s.balances| && s.balances[b].location < |s.locations| && l.balance == Some(b)
    && l.list == list && l.item == item && l.status == Pending
    && l.ordered == l.alloc == risen[b] > 0.0
    && l.bin == Some(s.locations[s.balances[b].location].code) && l.expiry == s.balances[b].expiry
    && l.picked == l.packed == l.consumed == 0.0
  }

  /** A line for what could not be reserved. */
  ghost predicate IsShort(list: nat, item: Item, short: real, l: Line) {
    && l.list == list && l.item == item && l.status == Shortage && l.balance.None? && l.bin.None? && l.expiry.None?
    && l.ordered == short > 0.0 && l.alloc == l.picked == l.packed == l.consumed == 0.0
  }

  lemma SliceDraws(s: State, list: nat, item: Item, need: real, shortageRow: bool, c: nat)
    requires list < |s.lists| && need > 0.0 && c < |CandidatesFor(s, list, item)|
    requires Take(CandidatesFor(s, list, item), c, AvailableAt(s.balances), need) > 0.0
    requires |Allocate(s, list, item, need, shortageRow).balances| == |s.balances|
    ensures var cands := CandidatesFor(s, list, item);
            DrawsOn(s, list, item, Risen(s, Allocate(s, list, item, need, shortageRow)),
                    SliceLine(s, list, cands[c], Take(cands, c, AvailableAt(s.balances), need)), cands[c])
  {
    ShareOf(s, list, item, need, shortageRow, c);
  }

  /** The `k`th line drawn for a demand, and the row it draws on. */
  lemma SliceOf(s: State, list: nat, item: Item, need: real, shortageRow: bool, k: nat) returns (c: nat)
    requires list < |s.lists| && need > 0.0
    requires |Allocate(s, list, item, need, shortageRow).balances| == |s.balances|
    requires k < |SliceLines(s, list, CandidatesFor(s, list, item), need, |CandidatesFor(s, list, item)|)|
    ensures var cands := CandidatesFor(s, list, item);
            var slices := SliceLines(s, list, cands, need, |cands|);
            && c < |cands| && |slices| == |DrawnOn(cands, AvailableAt(s.balances), need, |cands|)|
            && c == DrawnOn(cands, AvailableAt(s.balances), need, |cands|)[k]
            && DrawsOn(s, list, item, Risen(s, Allocate(s, list, item, need, shortageRow)), slices[k], cands[c])
  {
    var cands := CandidatesFor(s, list, item);
    SlicesCount(s, list, cands, need, |cands|);
    SliceIs(s, list, cands, need, |cands|, k);
    c := DrawnOn(cands, AvailableAt(s.balances), need, |cands|)[k];
    SliceDraws(s, list, item, need, shortageRow, c);
  }

  lemma InOrderOfDates(s: State, list: nat, item: Item, c: nat, d: nat)
    requires list < |s.lists| && c < d < |CandidatesFor(s, list, item)|
    ensures var i, j := CandidatesFor(s, list, item)[c], CandidatesFor(s, list, item)[d];
            i != j && !ExpiresSooner(s.balances[j], s.balances[i])
  {
    var i, j := CandidatesFor(s, list, item)[c], CandidatesFor(s, list, item)[d];
    if ExpiresSooner(s.balances[j], s.balances[i]) {
      StandsBefore(s, list, item, d, c);
    }
  }

  /** The lines an allocation adds: slices, and perhaps one for the shortage. */
  lemma AddedAre(s: State, list: nat, item: Item, need: real, shortageRow: bool)
    requires list < |s.lists| && need > 0.0
    ensures var t, cands := Allocate(s, list, item, need, shortageRow), CandidatesFor(s, list, item);
            var slices := SliceLines(s, list, cands, need, |cands|);
            && |t.balances| == |s.balances| && s.lines <= t.lines
            && var short := need - Total(Risen(s, t), SAME);
            && 0.0 <= short
            && t.lines[|s.lines|..] == slices
               + (if shortageRow && short > 0.0 then [ShortageLine(list, item, short)] else [])
  {
    var t, cands := Allocate(s, list, item, need, shortageRow), CandidatesFor(s, list, item);
    RisenTotal(s, list, item, need, shortageRow);
    assert t.lines[|s.lines|..] == NewLines(s, list, item, need, shortageRow);
  }

  /** Each line an allocation writes is for what the reservation of one row rose by, or, last and if asked for, for
      the rest of the need. */
  lemma LineDrawsOn(s: State, list: nat, item: Item, need: real, shortageRow: bool, k: nat)
    requires list < |s.lists| && need > 0.0
    requires k < |Allocate(s, list, item, need, shortageRow).lines| - |s.lines|
    ensures var t := Allocate(s, list, item, need, shortageRow);
            && |t.balances| == |s.balances| && s.lines <= t.lines
            && var risen, l := Risen(s, t), t.lines[|s.lines| + k];
            && (l.balance.Some? ==> DrawsOn(s, list, item, risen, l, l.balance.value))
            && (l.balance.None? ==> shortageRow && |s.lines| + k == |t.lines| - 1
                                    && IsShort(list, item, need - Total(risen, SAME), l))
  {
    var t, cands := Allocate(s, list, item, need, shortageRow), CandidatesFor(s, list, item);
    AddedAre(s, list, item, need, shortageRow);
    assert t.lines[|s.lines|..][k] == t.lines[|s.lines| + k];
    if k < |SliceLines(s, list, cands, need, |cands|)| {
      var c := SliceOf(s, list, item, need, shortageRow, k);
    }
  }

  /** No two lines an allocation writes draw on one row, and none on a row that expires sooner than that of a line
      before it. */
  lemma LinesInDateOrder(s: State, list: nat, item: Item, need: real, shortageRow: bool, k: nat, m: nat)
    requires list < |s.lists| && need > 0.0
    requires k < m < |Allocate(s, list, item, need, shortageRow).lines| - |s.lines|
    ensures var t := Allocate(s, list, item, need, shortageRow);
            var a, b := t.lines[|s.lines| + k].balance, t.lines[|s.lines| + m].balance;
            && a.Some? && a.value < |s.balances|
            && (b.Some? ==> b.value < |s.balances| && a != b
                            && !ExpiresSooner(s.balances[b.value], s.balances[a.value]))
  {
    var t, cands := Allocate(s, list, item, need, shortageRow), CandidatesFor(s, list, item);
    AddedAre(s, list, item, need, shortageRow);
    assert t.lines[|s.lines|..][k] == t.lines[|s.lines| + k] && t.lines[|s.lines|..][m] == t.lines[|s.lines| + m];
    var c := SliceOf(s, list, item, need, shortageRow, k);
    if m < |SliceLines(s, list, cands, need, |cands|)| {
      var d := SliceOf(s, list, item, need, shortageRow, m);
      DrawnInOrder(cands, AvailableAt(s.balances), need, |cands|, k, m);
      InOrderOfDates(s, list, item, c, d);
    }
  }

  /** Every row whose reservation rose has its line, and what could not be reserved has one if asked for. */
  lemma RisenHasLine(s: State, list: nat, item: Item, need: real, shortageRow: bool, b: nat)
    requires list < |s.lists| && need > 0.0
    ensures var t := Allocate(s, list, item, need, shortageRow);
            && |t.balances| == |s.balances| && s.lines <= t.lines
            && var risen, added := Risen(s, t), t.lines[|s.lines|..];
            && (b < |risen| && risen[b] > 0.0 ==> exists k :: 0 <= k < |added| && added[k].balance == Some(b))
            && (shortageRow && Total(risen, SAME) < need ==>
                  added != [] && IsShort(list, item, need - Total(risen, SAME), added[|added| - 1]))
  {
    var t, cands := Allocate(s, list, item, need, shortageRow), CandidatesFor(s, list, item);
    AddedAre(s, list, item, need, shortageRow);
    if b < |Risen(s, t)| && Risen(s, t)[b] > 0.0 {
      RowsRise(s, list, item, need, shortageRow, b);
      var c := StandsAt(s, list, item, b);
      ShareOf(s, list, item, need, shortageRow, c);
      SlicesCount(s, list, cands, need, |cands|);
      var k := AllDrawn(cands, AvailableAt(s.balances), need, |cands|, c);
      var d := SliceOf(s, list, item, need, shortageRow, k);
      assert t.lines[|s.lines|..][k].balance == Some(b);
    }
  }

  // A cart

  /** A demand falls short by what its rows cannot give. */
  lemma ShortIs(s: State, list: nat, d: Demand)
    requires list < |s.lists| && 0.0 < d.quantity
    ensures Short(s, list, d) == Max(d.quantity - Total(s.balances, FreeOn(s, list, d.item)), 0.0)
  {
    AllocationMeets(s, list, d.item, d.quantity, false);
    RisenTotal(s, list, d.item, d.quantity, false);
  }

  /** What a cart reports as short of its last demand: exactly what that asks for beyond what its rows have free
      once the demands before it are served, and nothing when that is enough. */
  lemma LastShortage(s: State, list: nat, demands: seq<Demand>)
    requires list < |s.lists| && 0 < |demands| && 0.0 < demands[|demands| - 1].quantity
    ensures var head, d := demands[..|demands| - 1], demands[|demands| - 1];
            var t := SellAll(s, list, head);
            var free := Total(t.balances, FreeOn(t, list, d.item));
            Unmet(s, list, demands)
              == Unmet(s, list, head) + (if free < d.quantity then [Demand(d.item, d.quantity - free)] else [])
  {
    ShortIs(SellAll(s, list, demands[..|demands| - 1]), list, demands[|demands| - 1]);
  }

  lemma SoldLineDraws(s: State, list: nat, d: Demand, k: nat)
    requires list < |s.lists| && |s.lines| <= k < |Allocate(s, list, d.item, d.quantity, false).lines|
    ensures var l := Allocate(s, list, d.item, d.quantity, false).lines[k];
            l.balance.Some? && l.status == Pending && l.item == d.item && l.ordered == l.alloc > 0.0
  {
    LineDrawsOn(s, list, d.item, d.quantity, false, k - |s.lines|);
  }

  /** A cart writes lines for what it reserves only, never one for what it cannot. */
  lemma {:induction false} CartHasNoShortageLine(s: State, list: nat, demands: seq<Demand>, k: nat)
    requires list < |s.lists| && |s.lines| <= k < |SellAll(s, list, demands).lines|
    ensures var l := SellAll(s, list, demands).lines[k];
            l.balance.Some? && l.status == Pending && l.ordered == l.alloc > 0.0
  {
    if |demands| > 0 {
      var n := |demands| - 1;
      var t := SellAll(s, list, demands[..n]);
      if k < |t.lines| {
        CartHasNoShortageLine(s, list, demands[..n], k);
        assert SellAll(s, list, demands).lines[k] == t.lines[k];
      } else {
        SoldLineDraws(t, list, demands[n], k);
      }
    }
  }
}
