/** Transfers between warehouses: stock leaves its source when a transfer ships, waits in the transit
    location of the destination, and moves on when the transfer is received. */
module Transfers {
  import opened Wrappers
  import opened Sums

  datatype Kind = Storage | PickFace | Staging | IncomingKind | OtherKind

  datatype Location = Location(warehouse: nat, kind: Kind)

  /** One row of stock_location_balances. */
  datatype Row = Row(item: string, batch: string, location: nat, expiry: Option<int>, actual: real, reserved: real)

  datatype Status = Draft | InTransit | Completed

  datatype Line = Line(item: string, batch: string, quantity: real, source: Option<nat>, target: Option<nat>)

  datatype Transfer = Transfer(from: nat, to: nat, status: Status, lines: seq<Line>)

  /** Every warehouse has one transit and one incoming location. */
  datatype State = State(
    locations: seq<Location>, transit: seq<nat>, incoming: seq<nat>, rows: seq<Row>, transfers: seq<Transfer>)

  datatype Error =
    | BadWarehouse | NoItems | NotFound | NotDraft | InsufficientStock | NotInTransit | TargetNotFound | TargetElsewhere

  datatype Step = Create(from: nat, to: nat, items: seq<Line>) | Ship(t: nat) | Receive(t: nat, place: Option<nat>)

  ghost predicate WellFormed(s: State) {
    && |s.transit| == |s.incoming|
    && (forall w :: 0 <= w < |s.transit| ==>
          && s.transit[w] < |s.locations| && s.locations[s.transit[w]] == Location(w, Staging)
          && s.incoming[w] < |s.locations| && s.locations[s.incoming[w]] == Location(w, IncomingKind))
    && (forall t :: 0 <= t < |s.transfers| ==> s.transfers[t].from < |s.transit| && s.transfers[t].to < |s.transit|)
    && (forall t :: 0 <= t < |s.transfers| ==> forall i :: 0 <= i < |s.transfers[t].lines| ==>
        0.0 < s.transfers[t].lines[i].quantity)
  }

  // Balances

  /** Adds a signed quantity to the first matching row from `i` up, creating one when there is none;
      nothing is refused. */
  function AdjustFrom(rows: seq<Row>, item: string, batch: string, location: nat, delta: real, i: nat): seq<Row>
    requires i <= |rows|
    decreases |rows| - i
  {
    if i == |rows| then rows + [Row(item, batch, location, None, delta, 0.0)]
    else if rows[i].item == item && rows[i].batch == batch && rows[i].location == location
    then rows[i := rows[i].(actual := rows[i].actual + delta)]
    else AdjustFrom(rows, item, batch, location, delta, i + 1)
  }

  function Adjust(rows: seq<Row>, item: string, batch: string, location: nat, delta: real): seq<Row> {
    AdjustFrom(rows, item, batch, location, delta, 0)
  }

  /** Moves a line's quantity from one location to another. */
  function Shift(rows: seq<Row>, l: Line, source: nat, target: nat): seq<Row> {
    Adjust(Adjust(rows, l.item, l.batch, source, -l.quantity), l.item, l.batch, target, l.quantity)
  }

  predicate IsSource(locations: seq<Location>, r: Row, from: nat, l: Line) {
    && r.item == l.item && r.location < |locations| && locations[r.location].warehouse == from
    && (locations[r.location].kind == Storage || locations[r.location].kind == PickFace)
    && r.actual - r.reserved >= l.quantity
    && (l.batch == "" || r.batch == l.batch)
  }

  predicate Earlier(a: Row, b: Row) { a.expiry.Some? && (b.expiry.None? || a.expiry.value < b.expiry.value) }

  /** The first-expiring row that can give the whole quantity. */
  function FindSource(locations: seq<Location>, rows: seq<Row>, from: nat, l: Line, n: nat): (r: Option<nat>)
    requires n <= |rows|
    ensures r.Some? ==> r.value < n && IsSource(locations, rows[r.value], from, l)
  {
    if n == 0 then None
    else
      var r := FindSource(locations, rows, from, l, n - 1);
      if IsSource(locations, rows[n - 1], from, l) && (r.None? || Earlier(rows[n - 1], rows[r.value])) then
          Some(n - 1) else r
  }

  // The operations

  predicate Keep(l: Line) { l.item != "" && l.quantity > 0.0 }

  function Kept(items: seq<Line>): (r: seq<Line>)
    ensures forall i :: 0 <= i < |r| ==> Keep(r[i]) && r[i] in items
  {
    if |items| == 0 then []
    else if Keep(items[|items| - 1]) then Kept(items[..|items| - 1]) + [items[|items| - 1]]
        else Kept(items[..|items| - 1])
  }

  function CreateTransfer(s: State, from: nat, to: nat, items: seq<Line>): Result<State, Error> {
    if from >= |s.transit| || to >= |s.transit| || from == to then Err(BadWarehouse)
    else if |items| == 0 then Err(NoItems)
    else Ok(s.(transfers := s.transfers + [Transfer(from, to, Draft, Kept(items))]))
  }

  function SourceFor(s: State, rows: seq<Row>, from: nat, l: Line): Option<nat> {
    if l.source.Some? then l.source
    else match FindSource(s.locations, rows, from, l, |rows|)
      case Some(i) => Some(rows[i].location)
      case None => None
  }

  datatype Moved = Moved(rows: seq<Row>, lines: seq<Line>)

  /** Ship the first `k` lines: out of the source, into transit, noting both on the line. */
  function ShipLines(s: State, from: nat, transit: nat, lines: seq<Line>, k: nat): (r: Result<Moved, Error>)
    requires k <= |lines|
    ensures r.Ok? ==> |r.value.lines| == k
  {
    if k == 0 then Ok(Moved(s.rows, []))
    else match ShipLines(s, from, transit, lines, k - 1)
      case Err(e) => Err(e)
      case Ok(m) =>
        var l := lines[k - 1];
        match SourceFor(s, m.rows, from, l)
        case None => Err(InsufficientStock)
        case Some(source) => Ok(Moved(
          Shift(m.rows, l, source, transit),
          m.lines + [l.(source := Some(source), target := Some(transit))]))
  }

  function ShipTransfer(s: State, t: nat): Result<State, Error> {
    if t >= |s.transfers| then Err(NotFound)
    else
      var tr := s.transfers[t];
      if tr.status != Draft then Err(NotDraft)
      else if tr.to >= |s.transit| then Err(BadWarehouse)
      else match ShipLines(s, tr.from, s.transit[tr.to], tr.lines, |tr.lines|)
        case Err(e) => Err(e)
        case Ok(m) => Ok(s.(rows := m.rows, transfers := s.transfers[t := tr.(status := InTransit, lines := m.lines)]))
  }

  /** Receive the first `k` lines: out of transit, into the target. */
  function ReceiveLines(rows: seq<Row>, transit: nat, target: nat, lines: seq<Line>, k: nat): (r: Moved)
    requires k <= |lines|
    ensures |r.lines| == k
  {
    if k == 0 then Moved(rows, [])
    else
      var m := ReceiveLines(rows, transit, target, lines, k - 1);
      Moved(Shift(m.rows, lines[k - 1], transit, target), m.lines + [lines[k - 1].(target := Some(target))])
  }

  function TargetOf(s: State, to: nat, place: Option<nat>): nat
    requires to < |s.incoming|
  {
    if place.Some? then place.value else s.incoming[to]
  }

  function ReceiveTransfer(s: State, t: nat, place: Option<nat>): Result<State, Error> {
    if t >= |s.transfers| then Err(NotFound)
    else
      var tr := s.transfers[t];
      if tr.status != InTransit then Err(NotInTransit)
      else if tr.to >= |s.transit| || tr.to >= |s.incoming| then Err(BadWarehouse)
      else if place.Some? && place.value >= |s.locations| then Err(TargetNotFound)
      else if place.Some? && s.locations[place.value].warehouse != tr.to then Err(TargetElsewhere)
      else
        var m := ReceiveLines(s.rows, s.transit[tr.to], TargetOf(s, tr.to, place), tr.lines, |tr.lines|);
        Ok(s.(rows := m.rows, transfers := s.transfers[t := tr.(status := Completed, lines := m.lines)]))
  }

  function Apply(s: State, step: Step): Result<State, Error> {
    match step
    case Create(from, to, items) => CreateTransfer(s, from, to, items)
    case Ship(t) => ShipTransfer(s, t)
    case Receive(t, place) => ReceiveTransfer(s, t, place)
  }

  function Next(s: State, step: Step): State {
    match Apply(s, step)
    case Ok(t) => t
    case Err(_) => s
  }

  // What is measured

  /** Stock of an item and batch, anywhere or at one location. */
  function AnywhereOf(item: string, batch: string): Row -> real {
    (r: Row) => if r.item == item && r.batch == batch then r.actual else 0.0
  }

  function AtOf(item: string, batch: string, location: nat): Row -> real {
    (r: Row) => if r.item == item && r.batch == batch && r.location == location then r.actual else 0.0
  }

  function LineOf(item: string, batch: string): Line -> real {
    (l: Line) => if l.item == item && l.batch == batch then l.quantity else 0.0
  }

  function LineFrom(item: string, batch: string, location: nat): Line -> real {
    (l: Line) => if l.item == item && l.batch == batch && l.source == Some(location) then l.quantity else 0.0
  }

  function OnTheWay(w: nat, item: string, batch: string): Transfer -> real {
    (t: Transfer) => if t.status == InTransit && t.to == w then Total(t.lines, LineOf(item, batch)) else 0.0
  }

  lemma {:induction false} AdjustTotals(
    rows: seq<Row>, item: string, batch: string, location: nat, delta: real, n: nat, i: string, b: string, at: nat)
    requires n <= |rows|
    ensures Total(AdjustFrom(rows, item, batch, location, delta, n), AnywhereOf(i, b))
              == Total(rows, AnywhereOf(i, b)) + (if item == i && batch == b then delta else 0.0)
    ensures Total(AdjustFrom(rows, item, batch, location, delta, n), AtOf(i, b, at))
              == Total(rows, AtOf(i, b, at)) + (if item == i && batch == b && location == at then delta else 0.0)
    decreases |rows| - n
  {
    if n == |rows| {
      TotalPush(rows, Row(item, batch, location, None, delta, 0.0), AnywhereOf(i, b));
      TotalPush(rows, Row(item, batch, location, None, delta, 0.0), AtOf(i, b, at));
    } else if rows[n].item == item && rows[n].batch == batch && rows[n].location == location {
      TotalUpdate(rows, n, rows[n].(actual := rows[n].actual + delta), AnywhereOf(i, b));
      TotalUpdate(rows, n, rows[n].(actual := rows[n].actual + delta), AtOf(i, b, at));
    } else {
      AdjustTotals(rows, item, batch, location, delta, n + 1, i, b, at);
    }
  }

  /** What moving `q` from one place to another does at a place. */
  function Net(at: nat, source: nat, target: nat, q: real): real {
    (if at == target then q else 0.0) - (if at == source then q else 0.0)
  }

  lemma ShiftTotals(rows: seq<Row>, l: Line, source: nat, target: nat, item: string, batch: string, at: nat)
    ensures Total(Shift(rows, l, source, target), AnywhereOf(item, batch)) == Total(rows, AnywhereOf(item, batch))
    ensures Total(Shift(rows, l, source, target), AtOf(item, batch, at))
              == Total(rows, AtOf(item, batch, at)) + Net(at, source, target, LineOf(item, batch)(l))
  {
    AdjustTotals(rows, l.item, l.batch, source, -l.quantity, 0, item, batch, at);
    AdjustTotals(Adjust(rows, l.item, l.batch, source, -l.quantity), l.item, l.batch, target, l.quantity, 0, item,
                 batch, at);
  }

  /** Shipping moves each line's quantity from its source to transit, and makes or loses none. */
  lemma {:induction false} ShipLinesTotals(
    s: State, from: nat, transit: nat, lines: seq<Line>, k: nat, item: string, batch: string, at: nat)
    requires k <= |lines| && ShipLines(s, from, transit, lines, k).Ok?
    ensures var m := ShipLines(s, from, transit, lines, k).value;
            && Total(m.rows, AnywhereOf(item, batch)) == Total(s.rows, AnywhereOf(item, batch))
            && Total(m.rows, AtOf(item, batch, at)) == Total(s.rows, AtOf(item, batch, at))
                 + (if at == transit then Sum(lines, LineOf(item, batch), k) else 0.0)
                     - Total(m.lines, LineFrom(item, batch, at))
            && Total(m.lines, LineOf(item, batch)) == Sum(lines, LineOf(item, batch), k)
  {
    if k > 0 {
      ShipLinesTotals(s, from, transit, lines, k - 1, item, batch, at);
      var m, l := ShipLines(s, from, transit, lines, k - 1).value, lines[k - 1];
      var source := SourceFor(s, m.rows, from, l).value;
      var shipped := l.(source := Some(source), target := Some(transit));
      ShiftTotals(m.rows, l, source, transit, item, batch, at);
      TotalPush(m.lines, shipped, LineFrom(item, batch, at));
      TotalPush(m.lines, shipped, LineOf(item, batch));
    }
  }

  lemma NetAdds(at: nat, source: nat, target: nat, a: real, b: real)
    ensures Net(at, source, target, a + b) == Net(at, source, target, a) + Net(at, source, target, b)
  {
  }

  lemma {:induction false} ReceiveLinesTotals(
    rows: seq<Row>, transit: nat, target: nat, lines: seq<Line>, k: nat, item: string, batch: string, at: nat)
    requires k <= |lines|
    ensures var r := ReceiveLines(rows, transit, target, lines, k).rows;
            && Total(r, AnywhereOf(item, batch)) == Total(rows, AnywhereOf(item, batch))
            && Total(r, AtOf(item, batch, at)) == Total(rows, AtOf(item, batch, at))
               + Net(at, transit, target, Sum(lines, LineOf(item, batch), k))
  {
    if k > 0 {
      var prev := ReceiveLines(rows, transit, target, lines, k - 1).rows;
      ReceiveLinesTotals(rows, transit, target, lines, k - 1, item, batch, at);
      ShiftTotals(prev, lines[k - 1], transit, target, item, batch, at);
      NetAdds(at, transit, target, Sum(lines, LineOf(item, batch), k - 1), LineOf(item, batch)(lines[k - 1]));
    }
  }

  lemma {:induction false} ReceivedLines(rows: seq<Row>, transit: nat, target: nat, lines: seq<Line>, k: nat)
    requires k <= |lines|
    ensures var r := ReceiveLines(rows, transit, target, lines, k).lines;
            forall i :: 0 <= i < k ==> r[i] == lines[i].(target := Some(target))
  {
    if k > 0 {
      ReceivedLines(rows, transit, target, lines, k - 1);
    }
  }

  // Conservation

  lemma NextConserves(s: State, step: Step, item: string, batch: string)
    ensures Total(Next(s, step).rows, AnywhereOf(item, batch)) == Total(s.rows, AnywhereOf(item, batch))
  {
    if Apply(s, step).Ok? {
      match step
      case Create(from, to, items) =>
      case Ship(t) =>
        var tr := s.transfers[t];
        ShipLinesTotals(s, tr.from, s.transit[tr.to], tr.lines, |tr.lines|, item, batch, 0);
      case Receive(t, place) =>
        var tr := s.transfers[t];
        ReceiveLinesTotals(s.rows, s.transit[tr.to], TargetOf(s, tr.to, place), tr.lines, |tr.lines|, item, batch, 0);
    }
  }

  /** A line as shipped: a source named on it is used as it is, one that was looked up is no staging area. */
  ghost predicate ShippedAs(s: State, l: Line, shipped: Line, transit: nat) {
    && shipped.source.Some? && shipped == l.(source := shipped.source, target := Some(transit))
    && (l.source.Some? ==> shipped.source == l.source)
    && (l.source.None? ==> shipped.source.value < |s.locations| && s.locations[shipped.source.value].kind != Staging)
  }

  lemma {:induction false} ShippedQuantities(s: State, from: nat, transit: nat, lines: seq<Line>, k: nat)
    requires k <= |lines| && ShipLines(s, from, transit, lines, k).Ok?
    ensures var m := ShipLines(s, from, transit, lines, k).value;
            forall i :: 0 <= i < k ==> ShippedAs(s, lines[i], m.lines[i], transit)
  {
    if k > 0 {
      ShippedQuantities(s, from, transit, lines, k - 1);
      var m, l := ShipLines(s, from, transit, lines, k - 1).value, lines[k - 1];
      var shipped := l.(source := SourceFor(s, m.rows, from, l), target := Some(transit));
      assert ShippedAs(s, l, shipped, transit);
      var now := ShipLines(s, from, transit, lines, k).value.lines;
      assert now == m.lines + [shipped];
      forall i | 0 <= i < k ensures ShippedAs(s, lines[i], now[i], transit) {
        if i < k - 1 {
          assert now[i] == m.lines[i];
        }
      }
    }
  }

  lemma NextWellFormed(s: State, step: Step)
    requires WellFormed(s)
    ensures WellFormed(Next(s, step))
    ensures Next(s, step).locations == s.locations && Next(s, step).transit == s.transit
            && Next(s, step).incoming == s.incoming
  {
    if step.Ship? && Apply(s, step).Ok? {
      var tr, lines := s.transfers[step.t], Next(s, step).transfers[step.t].lines;
      ShippedQuantities(s, tr.from, s.transit[tr.to], tr.lines, |tr.lines|);
      assert forall i :: 0 <= i < |lines| ==> ShippedAs(s, tr.lines[i], lines[i], s.transit[tr.to]);
    } else if step.Receive? && Apply(s, step).Ok? {
      var tr := s.transfers[step.t];
      ReceivedLines(s.rows, s.transit[tr.to], TargetOf(s, tr.to, step.place), tr.lines, |tr.lines|);
    }
  }

  // Transit

  /** The transit location of a warehouse holds what it opened with plus exactly what is on its way. */
  ghost predicate TransitAt(s0: State, s: State, w: nat, item: string, batch: string)
    requires w < |s.transit|
  {
    Total(s.rows, AtOf(item, batch, s.transit[w]))
      == Total(s0.rows, AtOf(item, batch, s.transit[w])) + Total(s.transfers, OnTheWay(w, item, batch))
  }

  lemma CreateKeepsTransitAt(
    s0: State, s: State, from: nat, to: nat, items: seq<Line>, w: nat, item: string, batch: string)
    requires WellFormed(s) && w < |s.transit| && TransitAt(s0, s, w, item, batch)
             && CreateTransfer(s, from, to, items).Ok?
    ensures TransitAt(s0, CreateTransfer(s, from, to, items).value, w, item, batch)
  {
    TotalPush(s.transfers, Transfer(from, to, Draft, Kept(items)), OnTheWay(w, item, batch));
  }

  /** A line of the item names the location as where it is to be taken from. */
  ghost predicate TakesFrom(lines: seq<Line>, item: string, batch: string, location: nat) {
    exists i :: 0 <= i < |lines| && lines[i].item == item && lines[i].batch == batch
        && lines[i].source == Some(location)
  }

  lemma TakenIff(lines: seq<Line>, item: string, batch: string, location: nat)
    requires forall i :: 0 <= i < |lines| ==> 0.0 < lines[i].quantity
    ensures Total(lines, LineFrom(item, batch, location)) == 0.0 <==> !TakesFrom(lines, item, batch, location)
  {
    if TakesFrom(lines, item, batch, location) {
      var i :| 0 <= i < |lines| && lines[i].item == item && lines[i].batch == batch
          && lines[i].source == Some(location);
      TotalAtLeastRow(lines, i, LineFrom(item, batch, location));
    } else {
      TotalZero(lines, LineFrom(item, batch, location), |lines|);
    }
  }

  /** What is shipped out of a transit location is what the lines name it for: none is looked up there. */
  lemma ShippedFromTransit(s: State, t: nat, w: nat, item: string, batch: string)
    requires WellFormed(s) && w < |s.transit| && ShipTransfer(s, t).Ok?
    ensures Total(ShipTransfer(s, t).value.transfers[t].lines, LineFrom(item, batch, s.transit[w]))
              == Total(s.transfers[t].lines, LineFrom(item, batch, s.transit[w]))
  {
    var tr, lines := s.transfers[t], ShipTransfer(s, t).value.transfers[t].lines;
    ShippedQuantities(s, tr.from, s.transit[tr.to], tr.lines, |tr.lines|);
    forall i | 0 <= i < |tr.lines|
      ensures LineFrom(item, batch, s.transit[w])(lines[i]) == LineFrom(item, batch, s.transit[w])(tr.lines[i])
    {
      assert ShippedAs(s, tr.lines[i], lines[i], s.transit[tr.to]);
    }
    TotalSame(lines, LineFrom(item, batch, s.transit[w]), tr.lines, LineFrom(item, batch, s.transit[w]));
  }

  /** Shipping keeps the law at a warehouse if and only if no line of the item names the transit location
      itself as its source. */
  lemma ShipKeepsTransitIff(s0: State, s: State, t: nat, w: nat, item: string, batch: string)
    requires WellFormed(s) && w < |s.transit| && TransitAt(s0, s, w, item, batch) && ShipTransfer(s, t).Ok?
    ensures TransitAt(s0, ShipTransfer(s, t).value, w, item, batch) <==>
            !TakesFrom(s.transfers[t].lines, item, batch, s.transit[w])
  {
    var tr, r := s.transfers[t], ShipTransfer(s, t).value;
    ShipLinesTotals(s, tr.from, s.transit[tr.to], tr.lines, |tr.lines|, item, batch, s.transit[w]);
    ShippedFromTransit(s, t, w, item, batch);
    TakenIff(tr.lines, item, batch, s.transit[w]);
    TotalUpdate(s.transfers, t, r.transfers[t], OnTheWay(w, item, batch));
    assert s.transit[w] == s.transit[tr.to] ==> w == tr.to by {
      assert s.locations[s.transit[w]].warehouse == w && s.locations[s.transit[tr.to]].warehouse == tr.to;
    }
  }

  lemma ReceiveMoves(s0: State, s: State, t: nat, place: Option<nat>, w: nat, item: string, batch: string)
    requires WellFormed(s) && w < |s.transit| && TransitAt(s0, s, w, item, batch) && ReceiveTransfer(s, t, place).Ok?
    ensures var r, tr := ReceiveTransfer(s, t, place).value, s.transfers[t];
            TransitAt(s0, r, w, item, batch) <==>
              (w != tr.to || TargetOf(s, tr.to, place) != s.transit[w] || Total(tr.lines, LineOf(item, batch)) == 0.0)
  {
    var r, tr := ReceiveTransfer(s, t, place).value, s.transfers[t];
    var target := TargetOf(s, tr.to, place);
    ReceiveLinesTotals(s.rows, s.transit[tr.to], target, tr.lines, |tr.lines|, item, batch, s.transit[w]);
    TotalUpdate(s.transfers, t, r.transfers[t], OnTheWay(w, item, batch));
    assert s.locations[s.transit[w]].warehouse == w && s.locations[s.transit[tr.to]].warehouse == tr.to;
    assert s.locations[target].warehouse == tr.to;
  }

  /** Receiving keeps the law everywhere exactly when the chosen target is not the transit location
      itself, or the transfer is empty. The engine only checks that the target is in the warehouse. */
  lemma ReceiveKeepsTransitIff(s0: State, s: State, t: nat, place: Option<nat>)
    requires WellFormed(s) && ReceiveTransfer(s, t, place).Ok?
    requires forall w: nat, item: string, batch: string :: w < |s.transit| ==> TransitAt(s0, s, w, item, batch)
    ensures var r, tr := ReceiveTransfer(s, t, place).value, s.transfers[t];
            (forall w: nat, item: string, batch: string :: w < |s.transit| ==> TransitAt(s0, r, w, item, batch))
              <==> (place != Some(s.transit[tr.to]) || tr.lines == [])
  {
    var r, tr := ReceiveTransfer(s, t, place).value, s.transfers[t];
    assert s.locations[s.transit[tr.to]].kind == Staging && s.locations[s.incoming[tr.to]].kind == IncomingKind;
    if place != Some(s.transit[tr.to]) || tr.lines == [] {
      forall w: nat, item: string, batch: string | w < |s.transit| ensures TransitAt(s0, r, w, item, batch) {
        ReceiveMoves(s0, s, t, place, w, item, batch);
      }
    } else {
      var item, batch := tr.lines[0].item, tr.lines[0].batch;
      ReceiveMoves(s0, s, t, place, tr.to, item, batch);
      TotalAtLeastRow(tr.lines, 0, LineOf(item, batch));
      assert !TransitAt(s0, r, tr.to, item, batch);
    }
  }

  /** Sources named by a caller, and targets, that are not transit locations. */
  ghost predicate AwayFromTransit(s: State, step: Step) {
    && (step.Create? ==> forall i :: 0 <= i < |step.items| ==>
          step.items[i].source.Some? ==> step.items[i].source.value !in s.transit)
    && (step.Receive? && step.place.Some? ==> step.place.value !in s.transit)
  }

  ghost predicate SourcesAway(s: State) {
    forall t :: 0 <= t < |s.transfers| ==> forall i :: 0 <= i < |s.transfers[t].lines| ==>
      s.transfers[t].lines[i].source.Some? ==> s.transfers[t].lines[i].source.value !in s.transit
  }

  lemma ShippedSourcesAway(s: State, t: nat)
    requires WellFormed(s) && SourcesAway(s) && ShipTransfer(s, t).Ok?
    ensures var r := ShipTransfer(s, t).value;
            forall i :: 0 <= i < |r.transfers[t].lines| ==>
              r.transfers[t].lines[i].source.Some? && r.transfers[t].lines[i].source.value !in s.transit
  {
    var r, tr := ShipTransfer(s, t).value, s.transfers[t];
    ShippedQuantities(s, tr.from, s.transit[tr.to], tr.lines, |tr.lines|);
    forall i | 0 <= i < |r.transfers[t].lines| ensures
      r.transfers[t].lines[i].source.Some? && r.transfers[t].lines[i].source.value !in s.transit
    {
      assert ShippedAs(s, tr.lines[i], r.transfers[t].lines[i], s.transit[tr.to]);
      if tr.lines[i].source.None? {
        forall w | 0 <= w < |s.transit| ensures s.transit[w] != r.transfers[t].lines[i].source.value {
        }
      }
    }
  }

  lemma NextSourcesAway(s: State, step: Step)
    requires WellFormed(s) && SourcesAway(s) && AwayFromTransit(s, step)
    ensures SourcesAway(Next(s, step))
  {
    if Apply(s, step).Ok? {
      match step
      case Create(from, to, items) =>
        forall i | 0 <= i < |Kept(items)| ensures Kept(items)[i].source.Some? ==>
            Kept(items)[i].source.value !in s.transit {
          assert Kept(items)[i] in items;
        }
      case Ship(t) => ShippedSourcesAway(s, t);
      case Receive(t, place) =>
        var tr := s.transfers[t];
        ReceivedLines(s.rows, s.transit[tr.to], TargetOf(s, tr.to, place), tr.lines, |tr.lines|);
    }
  }

  lemma NextKeepsTransitAt(s0: State, s: State, step: Step, w: nat, item: string, batch: string)
    requires WellFormed(s) && SourcesAway(s) && AwayFromTransit(s, step)
    requires w < |s.transit| && TransitAt(s0, s, w, item, batch)
    ensures Next(s, step).transit == s.transit && TransitAt(s0, Next(s, step), w, item, batch)
  {
    NextWellFormed(s, step);
    if Apply(s, step).Ok? {
      match step
      case Create(from, to, items) => CreateKeepsTransitAt(s0, s, from, to, items, w, item, batch);
      case Ship(t) => ShipKeepsTransitIff(s0, s, t, w, item, batch);
      case Receive(t, place) =>
        assert s.locations[s.transit[w]].kind == Staging
               && s.locations[s.incoming[s.transfers[t].to]].kind == IncomingKind;
        ReceiveMoves(s0, s, t, place, w, item, batch);
    }
  }

  /** The states of a run; a run stays away from transit locations when all its steps do. */
  ghost predicate IsRun(states: seq<State>, steps: seq<Step>) {
    && |states| == |steps| + 1 && WellFormed(states[0])
    && forall k :: 0 <= k < |steps| ==> WellFormed(states[k]) && states[k + 1] == Next(states[k], steps[k])
  }

  lemma {:induction false} RunConserves(states: seq<State>, steps: seq<Step>, n: nat, item: string, batch: string)
    requires IsRun(states, steps) && n <= |steps|
    ensures WellFormed(states[n]) && states[n].transit == states[0].transit
    ensures Total(states[n].rows, AnywhereOf(item, batch)) == Total(states[0].rows, AnywhereOf(item, batch))
  {
    if n > 0 {
      RunConserves(states, steps, n - 1, item, batch);
      NextWellFormed(states[n - 1], steps[n - 1]);
      NextConserves(states[n - 1], steps[n - 1], item, batch);
    }
  }

  /** Over any interleaving of transfers that stays away from transit locations: the transit location of
      every warehouse holds, item by item and batch by batch, exactly the lines of the transfers on their
      way to it, on top of what it opened with. */
  lemma {:induction false} RunKeepsTransit(
    states: seq<State>, steps: seq<Step>, n: nat, w: nat, item: string, batch: string)
    requires IsRun(states, steps) && n <= |steps| && states[0].transfers == [] && w < |states[0].transit|
    requires forall k :: 0 <= k < |steps| ==> AwayFromTransit(states[0], steps[k])
    ensures states[n].transit == states[0].transit && SourcesAway(states[n]) && WellFormed(states[n])
    ensures TransitAt(states[0], states[n], w, item, batch)
  {
    if n > 0 {
      RunKeepsTransit(states, steps, n - 1, w, item, batch);
      NextWellFormed(states[n - 1], steps[n - 1]);
      NextSourcesAway(states[n - 1], steps[n - 1]);
      NextKeepsTransitAt(states[0], states[n - 1], steps[n - 1], w, item, batch);
    }
  }

  /** So when a transfer is received, transit holds at least everything on it: the deduction whose error
      is ignored never takes it below what it opened with. */
  lemma TransitCovers(states: seq<State>, steps: seq<Step>, n: nat, t: nat, item: string, batch: string)
    requires IsRun(states, steps) && n <= |steps| && states[0].transfers == []
    requires forall k :: 0 <= k < |steps| ==> AwayFromTransit(states[0], steps[k])
    requires t < |states[n].transfers| && states[n].transfers[t].status == InTransit && WellFormed(states[n])
    ensures var s, tr := states[n], states[n].transfers[t];
            && tr.to < |s.transit|
            && Total(s.rows, AtOf(item, batch, s.transit[tr.to]))
               - Total(states[0].rows, AtOf(item, batch, s.transit[tr.to]))
                 >= Total(tr.lines, LineOf(item, batch)) >= 0.0
  {
    var s, tr := states[n], states[n].transfers[t];
    RunConserves(states, steps, n, item, batch);
    RunKeepsTransit(states, steps, n, tr.to, item, batch);
    forall k | 0 <= k < |s.transfers| ensures 0.0 <= OnTheWay(tr.to, item, batch)(s.transfers[k]) {
      TotalNonNegative(s.transfers[k].lines, LineOf(item, batch));
    }
    TotalAtLeastRow(s.transfers, t, OnTheWay(tr.to, item, batch));
  }

  // Warehouse by warehouse

  predicate Charges(r: Row, item: string, batch: string, location: nat) {
    r.item == item && r.batch == batch && r.location == location
  }

  /** What an adjustment does to the rows: one of them changes, or one is added. */
  lemma {:induction false} AdjustsOne(rows: seq<Row>, item: string, batch: string, location: nat, delta: real, n: nat)
    returns (k: nat)
    requires n <= |rows| && forall i :: 0 <= i < n ==> !Charges(rows[i], item, batch, location)
    ensures var r := AdjustFrom(rows, item, batch, location, delta, n);
            && k <= |rows| && (forall i :: 0 <= i < k ==> !Charges(rows[i], item, batch, location))
            && (k < |rows| ==> Charges(rows[k], item, batch, location))
            && r == if k == |rows| then rows + [Row(item, batch, location, None, delta, 0.0)]
                    else rows[k := rows[k].(actual := rows[k].actual + delta)]
    decreases |rows| - n
  {
    if n == |rows| || Charges(rows[n], item, batch, location) {
      k := n;
    } else {
      k := AdjustsOne(rows, item, batch, location, delta, n + 1);
    }
  }

  predicate Within(locations: seq<Location>, location: nat, w: nat) {
    location < |locations| && locations[location].warehouse == w
  }

  function InWarehouse(locations: seq<Location>, w: nat, item: string, batch: string): Row -> real {
    (r: Row) => if r.item == item && r.batch == batch && Within(locations, r.location, w) then r.actual else 0.0
  }

  /** What a drafted line takes out of a warehouse: a source that is looked up lies in the from-warehouse, one that
      is named may lie anywhere. */
  function TakenOutOf(locations: seq<Location>, from: nat, w: nat, item: string, batch: string): Line -> real {
    (l: Line) =>
      if l.item == item && l.batch == batch
         && (if l.source.Some? then Within(locations, l.source.value, w) else from == w)
      then l.quantity else 0.0
  }

  /** What it takes from elsewhere. */
  function TakenElsewhere(locations: seq<Location>, from: nat, item: string, batch: string): Line -> real {
    (l: Line) => LineOf(item, batch)(l) - TakenOutOf(locations, from, from, item, batch)(l)
  }

  lemma AdjustInWarehouse(
    locations: seq<Location>, rows: seq<Row>, l: Line, location: nat, delta: real, w: nat, item: string, batch: string)
    ensures Total(Adjust(rows, l.item, l.batch, location, delta), InWarehouse(locations, w, item, batch))
              == Total(rows, InWarehouse(locations, w, item, batch))
                  + (if l.item == item && l.batch == batch && Within(locations, location, w) then delta else 0.0)
  {
    var f := InWarehouse(locations, w, item, batch);
    var k := AdjustsOne(rows, l.item, l.batch, location, delta, 0);
    if k < |rows| {
      TotalUpdate(rows, k, rows[k].(actual := rows[k].actual + delta), f);
    } else {
      TotalPush(rows, Row(l.item, l.batch, location, None, delta, 0.0), f);
    }
  }

  lemma ShiftInWarehouse(
    locations: seq<Location>, rows: seq<Row>, l: Line, source: nat, target: nat, w: nat, item: string, batch: string)
    ensures Total(Shift(rows, l, source, target), InWarehouse(locations, w, item, batch))
              == Total(rows, InWarehouse(locations, w, item, batch))
                  + (if Within(locations, target, w) then LineOf(item, batch)(l) else 0.0)
                  - (if Within(locations, source, w) then LineOf(item, batch)(l) else 0.0)
  {
    AdjustInWarehouse(locations, rows, l, source, -l.quantity, w, item, batch);
    AdjustInWarehouse(locations, Adjust(rows, l.item, l.batch, source, -l.quantity), l, target, l.quantity, w, item,
                      batch);
  }

  /** Shipping takes each line out of the warehouse its source lies in. */
  lemma {:induction false} ShipLinesInWarehouse(
    s: State, from: nat, transit: nat, lines: seq<Line>, k: nat, w: nat, item: string, batch: string)
    requires k <= |lines| && ShipLines(s, from, transit, lines, k).Ok?
    ensures var f := InWarehouse(s.locations, w, item, batch);
            Total(ShipLines(s, from, transit, lines, k).value.rows, f)
              == Total(s.rows, f)
                  + (if Within(s.locations, transit, w) then Sum(lines, LineOf(item, batch), k) else 0.0)
                  - Sum(lines, TakenOutOf(s.locations, from, w, item, batch), k)
  {
    if k > 0 {
      ShipLinesInWarehouse(s, from, transit, lines, k - 1, w, item, batch);
      var m, l := ShipLines(s, from, transit, lines, k - 1).value, lines[k - 1];
      var source := SourceFor(s, m.rows, from, l).value;
      ShiftInWarehouse(s.locations, m.rows, l, source, transit, w, item, batch);
    }
  }

  /** Every source the lines name lies in the warehouse. */
  predicate NamedWithin(locations: seq<Location>, lines: seq<Line>, w: nat) {
    forall i :: 0 <= i < |lines| && lines[i].source.Some? ==> Within(locations, lines[i].source.value, w)
  }

  /** A warehouse changes by what a shipment from one warehouse to another should move. */
  ghost predicate MovesBetween(s: State, t: State, tr: Transfer, w: nat, item: string, batch: string) {
    var sent := Total(tr.lines, LineOf(item, batch));
    Total(t.rows, InWarehouse(s.locations, w, item, batch))
      == Total(s.rows, InWarehouse(s.locations, w, item, batch))
          + (if w == tr.to then sent else 0.0) - (if w == tr.from then sent else 0.0)
  }

  lemma ShipmentInWarehouse(s: State, t: nat, w: nat, item: string, batch: string)
    requires WellFormed(s) && ShipTransfer(s, t).Ok?
    ensures var tr := s.transfers[t];
            (MovesBetween(s, ShipTransfer(s, t).value, tr, w, item, batch)) <==>
            (Total(tr.lines, TakenOutOf(s.locations, tr.from, w, item, batch))
             == if w == tr.from then Total(tr.lines, LineOf(item, batch)) else 0.0)
  {
    var tr := s.transfers[t];
    ShipLinesInWarehouse(s, tr.from, s.transit[tr.to], tr.lines, |tr.lines|, w, item, batch);
  }

  lemma TakenSplits(locations: seq<Location>, tr: Transfer, item: string, batch: string)
    ensures Total(tr.lines, LineOf(item, batch))
              == Total(tr.lines, TakenOutOf(locations, tr.from, tr.from, item, batch))
                  + Total(tr.lines, TakenElsewhere(locations, tr.from, item, batch))
  {
    TotalAdd(tr.lines, TakenOutOf(locations, tr.from, tr.from, item, batch), tr.lines,
             TakenElsewhere(locations, tr.from, item, batch), tr.lines, LineOf(item, batch));
  }

  lemma NamedWithinTakes(locations: seq<Location>, tr: Transfer, w: nat, item: string, batch: string)
    requires NamedWithin(locations, tr.lines, tr.from)
    ensures Total(tr.lines, TakenOutOf(locations, tr.from, w, item, batch))
            == if w == tr.from then Total(tr.lines, LineOf(item, batch)) else 0.0
  {
    if w == tr.from {
      TotalSame(tr.lines, TakenOutOf(locations, tr.from, w, item, batch), tr.lines, LineOf(item, batch));
    } else {
      TotalZero(tr.lines, TakenOutOf(locations, tr.from, w, item, batch), |tr.lines|);
    }
  }

  /** A shipment lowers its from-warehouse, and no other, by what it sends, and raises its to-warehouse by that, of
      every item and batch, if and only if every source its lines name lies in the from-warehouse. The handler
      looks only at the place itself. */
  lemma ShipsBetweenIff(s: State, t: nat)
    requires WellFormed(s) && ShipTransfer(s, t).Ok?
    ensures var tr, r := s.transfers[t], ShipTransfer(s, t).value;
            (forall w: nat, item: string, batch: string :: MovesBetween(s, r, tr, w, item, batch))
              <==> NamedWithin(s.locations, tr.lines, tr.from)
  {
    var tr, r := s.transfers[t], ShipTransfer(s, t).value;
    if NamedWithin(s.locations, tr.lines, tr.from) {
      forall w: nat, item: string, batch: string ensures MovesBetween(s, r, tr, w, item, batch) {
        ShipmentInWarehouse(s, t, w, item, batch);
        NamedWithinTakes(s.locations, tr, w, item, batch);
      }
    } else {
      var i :| 0 <= i < |tr.lines| && tr.lines[i].source.Some?
               && !Within(s.locations, tr.lines[i].source.value, tr.from);
      var item, batch := tr.lines[i].item, tr.lines[i].batch;
      ShipmentInWarehouse(s, t, tr.from, item, batch);
      TakenSplits(s.locations, tr, item, batch);
      TotalAtLeastRow(tr.lines, i, TakenElsewhere(s.locations, tr.from, item, batch));
      assert !MovesBetween(s, r, tr, tr.from, item, batch);
    }
  }

  // Which requests go through, and what they leave

  lemma {:induction false} KeptAre(items: seq<Line>, l: Line)
    ensures multiset(Kept(items))[l] == if l.item != "" && 0.0 < l.quantity then multiset(items)[l] else 0
  {
    if |items| > 0 {
      var head, last := items[..|items| - 1], items[|items| - 1];
      assert items == head + [last];
      KeptAre(head, l);
    }
  }

  /** A transfer is drafted between two warehouses that are not the same, for a list of lines that is not empty; it
      keeps each line that has a code and a quantity as often as it was given, and no other. */
  lemma DraftedIff(s: State, from: nat, to: nat, items: seq<Line>)
    ensures var r := CreateTransfer(s, from, to, items);
            && (r.Ok? <==> from < |s.transit| && to < |s.transit| && from != to && items != [])
            && (r.Ok? ==> r.value == s.(transfers := r.value.transfers)
                          && |r.value.transfers| == |s.transfers| + 1
                          && r.value.transfers[..|s.transfers|] == s.transfers)
            && (r.Ok? ==> var t := r.value.transfers[|s.transfers|];
                          && t.from == from && t.to == to && t.status == Draft
                          && forall l :: multiset(t.lines)[l] == if l.item != "" && 0.0 < l.quantity
                                                                 then multiset(items)[l] else 0)
  {
    forall l ensures multiset(Kept(items))[l] == if l.item != "" && 0.0 < l.quantity then multiset(items)[l] else 0 {
      KeptAre(items, l);
    }
  }

  /** A line as it is noted when it ships: where it was taken from, and that it lies in transit. */
  ghost predicate NotedAs(a: Line, b: Line, transit: nat) {
    && b == a.(source := b.source, target := Some(transit)) && b.source.Some?
    && (a.source.Some? ==> b.source == a.source)
  }

  lemma LinesNoted(s: State, from: nat, transit: nat, lines: seq<Line>)
    requires ShipLines(s, from, transit, lines, |lines|).Ok?
    ensures var moved := ShipLines(s, from, transit, lines, |lines|).value.lines;
            |moved| == |lines| && forall i :: 0 <= i < |lines| ==> NotedAs(lines[i], moved[i], transit)
  {
    ShippedQuantities(s, from, transit, lines, |lines|);
    var moved := ShipLines(s, from, transit, lines, |lines|).value.lines;
    forall i | 0 <= i < |lines| ensures NotedAs(lines[i], moved[i], transit) {
      assert ShippedAs(s, lines[i], moved[i], transit);
    }
  }

  /** A shipment is of a draft, which is then in transit with its lines noted; it takes each line's quantity from the
      place noted for it and adds it to the transit location of the destination, and changes no other transfer. */
  lemma ShipmentIs(s: State, t: nat, item: string, batch: string, at: nat)
    requires ShipTransfer(s, t).Ok?
    ensures t < |s.transfers| && s.transfers[t].status == Draft && s.transfers[t].to < |s.transit|
    ensures var r, tr := ShipTransfer(s, t).value, s.transfers[t];
            && r == s.(rows := r.rows, transfers := r.transfers) && |r.transfers| == |s.transfers|
            && (forall k :: 0 <= k < |s.transfers| && k != t ==> r.transfers[k] == s.transfers[k])
            && r.transfers[t] == tr.(status := InTransit, lines := r.transfers[t].lines)
            && |r.transfers[t].lines| == |tr.lines|
            && (forall i :: 0 <= i < |tr.lines| ==>
                  NotedAs(tr.lines[i], r.transfers[t].lines[i], s.transit[tr.to]))
            && Total(r.rows, AtOf(item, batch, at)) == Total(s.rows, AtOf(item, batch, at))
                 + (if at == s.transit[tr.to] then Total(tr.lines, LineOf(item, batch)) else 0.0)
                 - Total(r.transfers[t].lines, LineFrom(item, batch, at))
  {
    var tr := s.transfers[t];
    LinesNoted(s, tr.from, s.transit[tr.to], tr.lines);
    ShipLinesTotals(s, tr.from, s.transit[tr.to], tr.lines, |tr.lines|, item, batch, at);
  }

  /** A transfer is received when it is on its way and the place chosen for it, if one is, exists in the destination;
      without one it goes to the incoming location. Everything on it leaves transit for there, it is completed with
      the place noted on every line, and no other transfer changes. */
  lemma ReceiptIs(s: State, t: nat, place: Option<nat>, item: string, batch: string, at: nat)
    requires WellFormed(s)
    ensures var r := ReceiveTransfer(s, t, place);
            && (r.Ok? <==> t < |s.transfers| && s.transfers[t].status == InTransit
                           && (place.Some? ==> Within(s.locations, place.value, s.transfers[t].to)))
            && (r.Ok? ==>
                  var tr := s.transfers[t];
                  var target := if place.Some? then place.value else s.incoming[tr.to];
                  && r.value == s.(rows := r.value.rows, transfers := r.value.transfers)
                  && |r.value.transfers| == |s.transfers|
                  && (forall k :: 0 <= k < |s.transfers| && k != t ==> r.value.transfers[k] == s.transfers[k])
                  && r.value.transfers[t] == tr.(status := Completed, lines := r.value.transfers[t].lines)
                  && |r.value.transfers[t].lines| == |tr.lines|
                  && (forall i :: 0 <= i < |tr.lines| ==>
                        r.value.transfers[t].lines[i] == tr.lines[i].(target := Some(target)))
                  && Total(r.value.rows, AtOf(item, batch, at)) == Total(s.rows, AtOf(item, batch, at))
                       + (if at == target then Total(tr.lines, LineOf(item, batch)) else 0.0)
                       - (if at == s.transit[tr.to] then Total(tr.lines, LineOf(item, batch)) else 0.0))
  {
    if ReceiveTransfer(s, t, place).Ok? {
      var tr := s.transfers[t];
      var target := TargetOf(s, tr.to, place);
      ReceivedLines(s.rows, s.transit[tr.to], target, tr.lines, |tr.lines|);
      ReceiveLinesTotals(s.rows, s.transit[tr.to], target, tr.lines, |tr.lines|, item, batch, at);
    }
  }

  // Stock that is promised to someone else

  ghost predicate Covered(r: Row) { r.reserved <= r.actual }

  ghost predicate AllCovered(rows: seq<Row>) { forall i :: 0 <= i < |rows| ==> Covered(rows[i]) }

  /** One row for each item, batch and location, as the table's unique index has it. */
  ghost predicate UniqueRows(rows: seq<Row>) {
    forall i, j :: 0 <= i < j < |rows| ==> !Charges(rows[j], rows[i].item, rows[i].batch, rows[i].location)
  }

  /** The row a line is taken from, found by the line's own batch, has the quantity free. */
  ghost predicate HasFree(rows: seq<Row>, l: Line, source: nat) {
    exists i :: 0 <= i < |rows| && Charges(rows[i], l.item, l.batch, source)
        && l.quantity <= rows[i].actual - rows[i].reserved
  }

  lemma TakingIff(rows: seq<Row>, l: Line, source: nat)
    requires UniqueRows(rows) && AllCovered(rows) && 0.0 < l.quantity
    ensures AllCovered(Adjust(rows, l.item, l.batch, source, -l.quantity)) <==> HasFree(rows, l, source)
    ensures UniqueRows(Adjust(rows, l.item, l.batch, source, -l.quantity))
  {
    var k := AdjustsOne(rows, l.item, l.batch, source, -l.quantity, 0);
    var r := Adjust(rows, l.item, l.batch, source, -l.quantity);
    if HasFree(rows, l, source) {
      var i :| 0 <= i < |rows| && Charges(rows[i], l.item, l.batch, source)
          && l.quantity <= rows[i].actual - rows[i].reserved;
      assert i == k;
    } else {
      assert !Covered(r[k]);
    }
  }

  lemma GivingKeeps(rows: seq<Row>, item: string, batch: string, location: nat, q: real)
    requires UniqueRows(rows) && 0.0 < q
    ensures UniqueRows(Adjust(rows, item, batch, location, q))
    ensures AllCovered(rows) ==> AllCovered(Adjust(rows, item, batch, location, q))
  {
    var k := AdjustsOne(rows, item, batch, location, q, 0);
  }

  lemma GivingElsewhere(rows: seq<Row>, item: string, batch: string, location: nat, q: real, i: nat)
    requires i < |rows| && rows[i].location != location
    ensures i < |Adjust(rows, item, batch, location, q)| && Adjust(rows, item, batch, location, q)[i] == rows[i]
  {
    var k := AdjustsOne(rows, item, batch, location, q, 0);
  }

  /** A line shipped to where it lies takes nothing from any row. */
  lemma ShiftInPlace(rows: seq<Row>, l: Line, place: nat)
    requires UniqueRows(rows) && AllCovered(rows)
    ensures AllCovered(Shift(rows, l, place, place)) && UniqueRows(Shift(rows, l, place, place))
  {
    var taken := Adjust(rows, l.item, l.batch, place, -l.quantity);
    var k := AdjustsOne(rows, l.item, l.batch, place, -l.quantity, 0);
    var n := AdjustsOne(taken, l.item, l.batch, place, l.quantity, 0);
    assert Charges(taken[k], l.item, l.batch, place);
    assert n == k;
  }

  /** A shipped line leaves every row at or above what it has reserved if and only if it is shipped to where it
      lies, or the row with its item, its batch as written and its source has the quantity free. The handler
      checks that for no source a caller names; for one it looks up, it checks it of a row that may have
      another batch. */
  lemma LineKeepsCoveredIff(rows: seq<Row>, l: Line, source: nat, transit: nat)
    requires UniqueRows(rows) && AllCovered(rows) && 0.0 < l.quantity
    ensures AllCovered(Shift(rows, l, source, transit)) <==> (source == transit || HasFree(rows, l, source))
    ensures UniqueRows(Shift(rows, l, source, transit))
  {
    if source == transit {
      ShiftInPlace(rows, l, source);
    } else {
      var taken := Adjust(rows, l.item, l.batch, source, -l.quantity);
      TakingIff(rows, l, source);
      GivingKeeps(taken, l.item, l.batch, transit, l.quantity);
      if !AllCovered(taken) {
        var k := AdjustsOne(rows, l.item, l.batch, source, -l.quantity, 0);
        GivingElsewhere(taken, l.item, l.batch, transit, l.quantity, k);
        assert !Covered(taken[k]);
      }
    }
  }

  /** The row stands in storage or on a pick face of the warehouse and has the line's quantity free, in the line's
      batch if it names one. */
  ghost predicate CanGive(locations: seq<Location>, r: Row, from: nat, l: Line) {
    && r.item == l.item && (l.batch != "" ==> r.batch == l.batch) && r.reserved + l.quantity <= r.actual
    && Within(locations, r.location, from) && locations[r.location].kind in {Storage, PickFace}
  }

  /** Of two rows, the one with the earlier date, or with one at all; the lower one when their dates are the same. */
  ghost predicate ComesFirst(rows: seq<Row>, i: nat, j: nat)
    requires i < |rows| && j < |rows|
  {
    match (rows[i].expiry, rows[j].expiry)
    case (Some(a), Some(b)) => a < b || (a == b && i < j)
    case (Some(_), None) => true
    case (None, Some(_)) => false
    case (None, None) => i < j
  }

  lemma {:induction false} SourceBelow(locations: seq<Location>, rows: seq<Row>, from: nat, l: Line, n: nat)
    requires n <= |rows|
    ensures var r := FindSource(locations, rows, from, l, n);
            && (r.None? ==> forall i :: 0 <= i < n ==> !CanGive(locations, rows[i], from, l))
            && (r.Some? ==> CanGive(locations, rows[r.value], from, l))
            && (r.Some? ==> forall i :: 0 <= i < n && i != r.value && CanGive(locations, rows[i], from, l) ==>
                  ComesFirst(rows, r.value, i))
  {
    if n > 0 {
      SourceBelow(locations, rows, from, l, n - 1);
    }
  }

  /** A line without a source is taken from the row that can give it and is the first to expire, and is refused
      only when no row can. */
  lemma SourceExpiresFirst(s: State, rows: seq<Row>, from: nat, l: Line)
    requires l.source.None?
    ensures SourceFor(s, rows, from, l).None? <==>
            forall i :: 0 <= i < |rows| ==> !CanGive(s.locations, rows[i], from, l)
    ensures SourceFor(s, rows, from, l).Some? ==>
              exists k :: 0 <= k < |rows| && rows[k].location == SourceFor(s, rows, from, l).value
                  && CanGive(s.locations, rows[k], from, l)
                  && forall i :: 0 <= i < |rows| && i != k && CanGive(s.locations, rows[i], from, l) ==>
                       ComesFirst(rows, k, i)
  {
    SourceBelow(s.locations, rows, from, l, |rows|);
  }

  /** A source that was looked up has the quantity free on the line's own batch when it was found under that
      batch; found under another, only if the row of the line's own batch there has it too. */
  lemma LookedUpHasFree(locations: seq<Location>, rows: seq<Row>, from: nat, l: Line)
    requires FindSource(locations, rows, from, l, |rows|).Some?
    ensures var found := rows[FindSource(locations, rows, from, l, |rows|).value];
            && (found.batch == l.batch ==> HasFree(rows, l, found.location))
            && (found.batch != l.batch ==> l.batch == "")
  {
    var i := FindSource(locations, rows, from, l, |rows|).value;
    assert IsSource(locations, rows[i], from, l);
  }

  /** So a transfer whose lines all name a batch and leave their source to be looked up never takes promised stock. */
  lemma {:induction false} ShipKeepsCovered(s: State, from: nat, transit: nat, lines: seq<Line>, k: nat)
    requires k <= |lines| && ShipLines(s, from, transit, lines, k).Ok? && UniqueRows(s.rows) && AllCovered(s.rows)
    requires transit < |s.locations| && s.locations[transit].kind == Staging
    requires forall i :: 0 <= i < |lines| ==> lines[i].source.None? && lines[i].batch != "" && 0.0 < lines[i].quantity
    ensures var m := ShipLines(s, from, transit, lines, k).value; UniqueRows(m.rows) && AllCovered(m.rows)
  {
    if k > 0 {
      ShipKeepsCovered(s, from, transit, lines, k - 1);
      var rows, l := ShipLines(s, from, transit, lines, k - 1).value.rows, lines[k - 1];
      LookedUpHasFree(s.locations, rows, from, l);
      LineKeepsCoveredIff(rows, l, SourceFor(s, rows, from, l).value, transit);
    }
  }

  // Runs that end where a law fails

  /** Two warehouses; ten bolts of batch B1, eight of them promised, in the first. */
  const PLACES := [
    Location(0, Storage), Location(0, Staging), Location(0, IncomingKind), Location(1, Staging),
    Location(1, IncomingKind)]
  const STOCKED := State(PLACES, [1, 3], [2, 4], [Row("BOLT", "B1", 0, None, 10.0, 8.0)], [])

  function Bolts(q: real, batch: string, source: Option<nat>): Line { Line("BOLT", batch, q, source, None) }

  function Drafted(l: Line): State { STOCKED.(transfers := [Transfer(0, 1, Draft, [l])]) }

  lemma Drafts(l: Line)
    requires Keep(l)
    ensures WellFormed(STOCKED) && Next(STOCKED, Create(0, 1, [l])) == Drafted(l)
    ensures Drafted(l).transfers[0].lines == [l]
  {
    assert [l][..0] == [] && Kept([l]) == [l];
    assert STOCKED.transfers + [Transfer(0, 1, Draft, [l])] == [Transfer(0, 1, Draft, [l])];
  }

  /** What shipping a single line leaves. */
  lemma ShipsOne(l: Line, source: nat)
    requires Keep(l) && SourceFor(STOCKED, STOCKED.rows, 0, l) == Some(source)
    ensures ShipTransfer(Drafted(l), 0).Ok?
    ensures Next(Drafted(l), Ship(0)) == STOCKED.(
              rows := Shift(STOCKED.rows, l, source, 3),
              transfers := [Transfer(0, 1, InTransit, [l.(source := Some(source), target := Some(3))])])
  {
    var s := Drafted(l);
    var shipped := l.(source := Some(source), target := Some(3));
    assert SourceFor(s, s.rows, 0, l) == Some(source);
    assert ShipLines(s, 0, 3, [l], 0) == Ok(Moved(s.rows, []));
    assert ShipLines(s, 0, 3, [l], 1) == Ok(Moved(Shift(s.rows, l, source, 3), [] + [shipped]));
    assert [] + [shipped] == [shipped];
    assert s.transfers[0].lines == [l] && s.transit[1] == 3;
    assert s.transfers[0 := Transfer(0, 1, InTransit, [shipped])] == [Transfer(0, 1, InTransit, [shipped])];
  }

  /** Ten bolts, of which eight are promised, shipped because a caller named where they are. */
  lemma NamedSourceTakesPromised()
    ensures var l := Bolts(10.0, "B1", Some(0));
            && Next(STOCKED, Create(0, 1, [l])) == Drafted(l) && AllCovered(STOCKED.rows)
            && ShipTransfer(Drafted(l), 0).Ok? && !AllCovered(Next(Drafted(l), Ship(0)).rows)
  {
    var l := Bolts(10.0, "B1", Some(0));
    Drafts(l);
    ShipsOne(l, 0);
    LineKeepsCoveredIff(STOCKED.rows, l, 0, 3);
  }

  /** Two bolts of no batch in particular, found in batch B1 and taken from a row without a batch that is not there. */
  lemma BlankBatchTakesNothing()
    ensures var l := Bolts(2.0, "", None);
            && Next(STOCKED, Create(0, 1, [l])) == Drafted(l)
            && ShipTransfer(Drafted(l), 0).Ok? && !AllCovered(Next(Drafted(l), Ship(0)).rows)
  {
    var l := Bolts(2.0, "", None);
    Drafts(l);
    assert FindSource(PLACES, STOCKED.rows, 0, l, 0) == None;
    assert IsSource(PLACES, STOCKED.rows[0], 0, l);
    ShipsOne(l, 0);
    LineKeepsCoveredIff(STOCKED.rows, l, 0, 3);
  }

  /** Five bolts shipped out of the transit location of the first warehouse, which opened without any. */
  lemma ShippedOutOfTransit()
    ensures var l := Bolts(5.0, "B1", Some(1));
            && Next(STOCKED, Create(0, 1, [l])) == Drafted(l) && ShipTransfer(Drafted(l), 0).Ok?
            && !TransitAt(STOCKED, Next(Drafted(l), Ship(0)), 0, "BOLT", "B1")
  {
    var l := Bolts(5.0, "B1", Some(1));
    Drafts(l);
    ShipsOne(l, 1);
    assert Drafted(l).transfers[0].lines[0] == l;
    TotalOfOne(Drafted(l).transfers, OnTheWay(0, "BOLT", "B1"));
    ShipKeepsTransitIff(STOCKED, Drafted(l), 0, 0, "BOLT", "B1");
  }

  /** Five bolts sent from the first warehouse that were taken out of the second. */
  lemma ShippedFromElsewhere()
    ensures var l := Bolts(5.0, "B1", Some(4));
            && Next(STOCKED, Create(0, 1, [l])) == Drafted(l) && ShipTransfer(Drafted(l), 0).Ok?
            && !MovesBetween(Drafted(l), Next(Drafted(l), Ship(0)), Drafted(l).transfers[0], 0, "BOLT", "B1")
  {
    var l := Bolts(5.0, "B1", Some(4));
    Drafts(l);
    ShipsOne(l, 4);
    ShipmentInWarehouse(Drafted(l), 0, 0, "BOLT", "B1");
    TotalOfOne(Drafted(l).transfers[0].lines, TakenOutOf(PLACES, 0, 0, "BOLT", "B1"));
    TotalOfOne(Drafted(l).transfers[0].lines, LineOf("BOLT", "B1"));
  }

  lemma DraftedIsFine(l: Line)
    requires Keep(l)
    ensures WellFormed(Drafted(l))
  {
    assert Drafted(l).transfers[0].lines == [l];
  }

  lemma TwoBoltsSent(l: Line)
    requires l == Bolts(2.0, "B1", Some(0))
    ensures var s := Next(Drafted(l), Ship(0));
            && WellFormed(s) && s.transit == [1, 3] && s.locations == PLACES
            && s.transfers == [Transfer(0, 1, InTransit, [l.(target := Some(3))])]
  {
    Drafts(l);
    ShipsOne(l, 0);
    DraftedIsFine(l);
    NextWellFormed(Drafted(l), Ship(0));
  }

  lemma TwoBoltsInTransit(l: Line)
    requires l == Bolts(2.0, "B1", Some(0))
    ensures TransitAt(STOCKED, Next(Drafted(l), Ship(0)), 1, "BOLT", "B1")
  {
    ShipsOne(l, 0);
    DraftedIsFine(l);
    assert Drafted(l).transfers[0].lines[0] == l;
    TotalOfOne(Drafted(l).transfers, OnTheWay(1, "BOLT", "B1"));
    ShipKeepsTransitIff(STOCKED, Drafted(l), 0, 1, "BOLT", "B1");
  }

  lemma ReceivedWhereItWas(s: State, l: Line)
    requires WellFormed(s) && s.transit == [1, 3] && s.locations == PLACES && TransitAt(STOCKED, s, 1, "BOLT", "B1")
    requires s.transfers == [Transfer(0, 1, InTransit, [l])] && LineOf("BOLT", "B1")(l) == 2.0
    ensures ReceiveTransfer(s, 0, Some(3)).Ok? && !TransitAt(STOCKED, Next(s, Receive(0, Some(3))), 1, "BOLT", "B1")
  {
    TotalOfOne(s.transfers[0].lines, LineOf("BOLT", "B1"));
    ReceiveMoves(STOCKED, s, 0, Some(3), 1, "BOLT", "B1");
  }

  /** Two bolts received into the transit location they came from: nothing is on its way any more, and there
      they lie. */
  lemma ReceivedIntoTransit()
    ensures var l := Bolts(2.0, "B1", Some(0));
            var s := Next(Drafted(l), Ship(0));
            && Next(STOCKED, Create(0, 1, [l])) == Drafted(l) && TransitAt(STOCKED, s, 1, "BOLT", "B1")
            && ReceiveTransfer(s, 0, Some(3)).Ok? && !TransitAt(STOCKED, Next(s, Receive(0, Some(3))), 1, "BOLT", "B1")
  {
    var l := Bolts(2.0, "B1", Some(0));
    Drafts(l);
    TwoBoltsSent(l);
    TwoBoltsInTransit(l);
    ReceivedWhereItWas(Next(Drafted(l), Ship(0)), l.(target := Some(3)));
  }

  // The handlers as they run

  /** One line without stock stops the whole transfer. */
  lemma {:induction false} ShipLinesRefuse(s: State, from: nat, transit: nat, lines: seq<Line>, k: nat, n: nat)
    requires k <= n <= |lines| && ShipLines(s, from, transit, lines, k).Err?
    ensures ShipLines(s, from, transit, lines, n).Err?
  {
    if k < n {
      ShipLinesRefuse(s, from, transit, lines, k, n - 1);
    }
  }

  class TransferDesk {
    var locations: seq<Location>
    var transit: seq<nat>
    var incoming: seq<nat>
    var rows: seq<Row>
    var transfers: seq<Transfer>

    function View(): State
      reads this
    {
      State(locations, transit, incoming, rows, transfers)
    }

    constructor (s: State)
      ensures View() == s
    {
      locations, transit, incoming, rows, transfers := s.locations, s.transit, s.incoming, s.rows, s.transfers;
    }

    method Create(from: nat, to: nat, items: seq<Line>) returns (r: Result<nat, Error>)
      modifies `transfers
      ensures r.Err? <==> CreateTransfer(old(View()), from, to, items).Err?
      ensures View() == if r.Ok? then CreateTransfer(old(View()), from, to, items).value else old(View())
    {
      if from >= |transit| || to >= |transit| || from == to { return Err(BadWarehouse); }
      if |items| == 0 { return Err(NoItems); }
      var kept: seq<Line>, i := [], 0;
      while i < |items|
        invariant 0 <= i <= |items| && kept == Kept(items[..i])
      {
        assert items[..i + 1][..i] == items[..i];
        if items[i].item != "" && items[i].quantity > 0.0 { kept := kept + [items[i]]; }
        i := i + 1;
      }
      assert items[..i] == items;
      transfers := transfers + [Transfer(from, to, Draft, kept)];
      return Ok(|transfers| - 1);
    }

    method ShiftRows(l: Line, source: nat, target: nat)
      modifies `rows
      ensures rows == Shift(old(rows), l, source, target)
    {
      rows := Adjust(rows, l.item, l.batch, source, -l.quantity);
      rows := Adjust(rows, l.item, l.batch, target, l.quantity);
    }

    /** The shipping loop; on a line without stock the rows are put back. */
    method MoveToTransit(from: nat, place: nat, lines: seq<Line>) returns (r: Result<seq<Line>, Error>)
      modifies `rows
      ensures var o := ShipLines(old(View()), from, place, lines, |lines|);
              && (r.Err? <==> o.Err?) && (r.Ok? ==> o.value == Moved(rows, r.value)) && (r.Err? ==> rows == old(rows))
    {
      var before, k := View(), 0;
      var moved: seq<Line> := [];
      while k < |lines|
        invariant 0 <= k <= |lines|
        invariant ShipLines(before, from, place, lines, k) == Ok(Moved(rows, moved))
      {
        var l := lines[k];
        var source := SourceFor(before, rows, from, l);
        if source.None? {
          rows := before.rows;
          ShipLinesRefuse(before, from, place, lines, k + 1, |lines|);
          return Err(InsufficientStock);
        }
        ShiftRows(l, source.value, place);
        moved := moved + [l.(source := source, target := Some(place))];
        k := k + 1;
      }
      return Ok(moved);
    }

    method Ship(t: nat) returns (r: Result<(), Error>)
      modifies `rows, `transfers
      ensures r.Err? <==> ShipTransfer(old(View()), t).Err?
      ensures View() == Next(old(View()), Step.Ship(t))
    {
      if t >= |transfers| { return Err(NotFound); }
      var tr := transfers[t];
      if tr.status != Draft { return Err(NotDraft); }
      if tr.to >= |transit| { return Err(BadWarehouse); }
      var moved := MoveToTransit(tr.from, transit[tr.to], tr.lines);
      if moved.Err? { return Err(moved.error); }
      transfers := transfers[t := tr.(status := InTransit, lines := moved.value)];
      return Ok(());
    }

    /** The receiving loop. */
    method MoveToTarget(place: nat, target: nat, lines: seq<Line>) returns (arrived: seq<Line>)
      modifies `rows
      ensures ReceiveLines(old(rows), place, target, lines, |lines|) == Moved(rows, arrived)
    {
      arrived := [];
      var k := 0;
      while k < |lines|
        invariant 0 <= k <= |lines|
        invariant ReceiveLines(old(rows), place, target, lines, k) == Moved(rows, arrived)
      {
        ShiftRows(lines[k], place, target);
        arrived := arrived + [lines[k].(target := Some(target))];
        k := k + 1;
      }
    }

    method Receive(t: nat, place: Option<nat>) returns (r: Result<nat, Error>)
      modifies `rows, `transfers
      ensures r.Err? <==> ReceiveTransfer(old(View()), t, place).Err?
      ensures View() == Next(old(View()), Step.Receive(t, place))
    {
      if t >= |transfers| { return Err(NotFound); }
      var tr := transfers[t];
      if tr.status != InTransit { return Err(NotInTransit); }
      if tr.to >= |transit| || tr.to >= |incoming| { return Err(BadWarehouse); }
      if place.Some? {
        if place.value >= |locations| { return Err(TargetNotFound); }
        if locations[place.value].warehouse != tr.to { return Err(TargetElsewhere); }
      }
      var target := if place.Some? then place.value else incoming[tr.to];
      var arrived := MoveToTarget(transit[tr.to], target, tr.lines);
      transfers := transfers[t := tr.(status := Completed, lines := arrived)];
      return Ok(target);
    }
  }
}
