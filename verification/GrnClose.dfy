/** Posting received stock. A session can be closed several times while scanning goes on; each close
    posts what has been scanned since the one before, split into damaged and good. */
module GrnClose {
  import opened Wrappers
  import opened Sums

  type Item = string

  /** One row of grn_lines; `posted` is how much of it earlier closes have posted. */
  datatype Line = Line(item: Item, scanned: real, damaged: real, requiresQI: bool, posted: real)

  datatype Place = Incoming | Hold | Damaged

  datatype Entry = Entry(item: Item, quantity: real)

  datatype PoRow = PoRow(item: Item, quantity: real, received: real)

  datatype PoStatus = ToReceiveAndBill | ToReceive | ToBill | PoCompleted

  datatype Po = Po(rows: seq<PoRow>, billed: real, per: real, status: PoStatus)

  /** Verifying stands for the states between item verification and putaway. */
  datatype Status = Draft | Receiving | Verifying | PartiallyReceived | Closed | Completed

  datatype Session = Session(
    lines: seq<Line>, stock: map<(Item, Place), real>, ledger: seq<Entry>, inspections: seq<Entry>,
    po: Option<Po>, status: Status, stockPosted: bool)

  datatype Error =
    | AlreadyClosed | NotActive | NothingScanned | AlreadyPosted | NotVerified | ExceptionsOpen | NoSuchLine

  // One line

  function Delta(l: Line): real { Max(l.scanned - l.posted, 0.0) }

  /** The damaged part of what a close posts for a line: never more than it posts at all. */
  function DamagedNow(l: Line): real { Min(Max(l.damaged - l.posted, 0.0), Delta(l)) }

  function GoodNow(l: Line): real { Delta(l) - DamagedNow(l) }

  function PartTo(l: Line, place: Place): real {
    match place
    case Damaged => DamagedNow(l)
    case Hold => if l.requiresQI then GoodNow(l) else 0.0
    case Incoming => if l.requiresQI then 0.0 else GoodNow(l)
  }

  function Posted(l: Line): Line { l.(posted := Max(l.posted, l.scanned)) }

  // Measures over lines, entries and order rows

  function PartOf(item: Item, place: Place): Line -> real {
    (l: Line) => if l.item == item then PartTo(l, place) else 0.0
  }

  function DeltaOf(item: Item): Line -> real { (l: Line) => if l.item == item then Delta(l) else 0.0 }

  function PostedOf(item: Item): Line -> real { (l: Line) => if l.item == item then l.posted else 0.0 }

  function ShareTo(l: Line, place: Place): real {
    var damaged := Min(Max(l.damaged, 0.0), l.posted);
    match place
    case Damaged => damaged
    case Hold => if l.requiresQI then l.posted - damaged else 0.0
    case Incoming => if l.requiresQI then 0.0 else l.posted - damaged
  }

  /** What a line's posted quantity amounts to at a place when its damaged quantity never changed. */
  function ShareOf(item: Item, place: Place): Line -> real {
    (l: Line) => if l.item == item then ShareTo(l, place) else 0.0
  }

  function QuantityOf(item: Item): Entry -> real { (e: Entry) => if e.item == item then e.quantity else 0.0 }

  function ReceivedOf(item: Item): PoRow -> real { (r: PoRow) => if r.item == item then r.received else 0.0 }

  function CopiesOf(item: Item): PoRow -> real { (r: PoRow) => if r.item == item then 1.0 else 0.0 }

  const ORDERED: PoRow -> real := (r: PoRow) => r.quantity
  const RECEIVED: PoRow -> real := (r: PoRow) => r.received

  // A close

  function At(stock: map<(Item, Place), real>, item: Item, place: Place): real {
    if (item, place) in stock then stock[(item, place)] else 0.0
  }

  function Adjust(stock: map<(Item, Place), real>, item: Item, place: Place, delta: real): map<(Item, Place), real> {
    stock[(item, place) := At(stock, item, place) + delta]
  }

  function AdjustPositive(
    stock: map<(Item, Place), real>, item: Item, place: Place, delta: real): map<(Item, Place), real>
  {
    if delta > 0.0 then Adjust(stock, item, place, delta) else stock
  }

  function PostLine(stock: map<(Item, Place), real>, l: Line): map<(Item, Place), real> {
    var rest := AdjustPositive(stock, l.item, Damaged, DamagedNow(l));
    AdjustPositive(rest, l.item, if l.requiresQI then Hold else Incoming, GoodNow(l))
  }

  function PostLines(stock: map<(Item, Place), real>, lines: seq<Line>, n: nat): map<(Item, Place), real>
    requires n <= |lines|
  {
    if n == 0 then stock else PostLine(PostLines(stock, lines, n - 1), lines[n - 1])
  }

  /** One ledger entry for each line with something new, damaged and good together. */
  function Entries(lines: seq<Line>, n: nat): seq<Entry>
    requires n <= |lines|
  {
    if n == 0 then []
    else if Delta(lines[n - 1]) > 0.0 then Entries(lines, n - 1) + [Entry(lines[n - 1].item, Delta(lines[n - 1]))]
    else Entries(lines, n - 1)
  }

  function Inspections(lines: seq<Line>, n: nat): seq<Entry>
    requires n <= |lines|
  {
    if n == 0 then []
    else if lines[n - 1].requiresQI && GoodNow(lines[n - 1]) > 0.0 then
        Inspections(lines, n - 1) + [Entry(lines[n - 1].item, GoodNow(lines[n - 1]))]
    else Inspections(lines, n - 1)
  }

  function PostedLines(lines: seq<Line>): (r: seq<Line>)
    ensures |r| == |lines|
  {
    seq(|lines|, (i: int) requires 0 <= i < |lines| => Posted(lines[i]))
  }

  function ReceivedRows(rows: seq<PoRow>, lines: seq<Line>): (r: seq<PoRow>)
    ensures |r| == |rows|
  {
    seq(|rows|, (j: int) requires 0 <= j < |rows| =>
      rows[j].(received := rows[j].received + Total(lines, DeltaOf(rows[j].item))))
  }

  function Percent(rows: seq<PoRow>): real {
    if Total(rows, ORDERED) > 0.0 then Min(Total(rows, RECEIVED) / Total(rows, ORDERED) * 100.0, 100.0) else 0.0
  }

  function StatusFor(per: real, billed: real): PoStatus {
    if per >= 100.0 && billed >= 100.0 then PoCompleted
    else if per >= 100.0 then ToBill
    else if per > 0.0 && billed >= 100.0 then ToReceive
    else ToReceiveAndBill
  }

  function ReceivePo(po: Po, lines: seq<Line>): Po {
    var rows := ReceivedRows(po.rows, lines);
    Po(rows, po.billed, Percent(rows), StatusFor(Percent(rows), po.billed))
  }

  predicate AnyNew(lines: seq<Line>) { exists i :: 0 <= i < |lines| && lines[i].scanned > lines[i].posted }

  function Close(s: Session, status: Status): Session {
    Session(
      PostedLines(s.lines), PostLines(s.stock, s.lines, |s.lines|),
      s.ledger + Entries(s.lines, |s.lines|), s.inspections + Inspections(s.lines, |s.lines|),
      if s.po.Some? && AnyNew(s.lines) then Some(ReceivePo(s.po.value, s.lines)) else s.po, status, true)
  }

  const SCANNED: Line -> real := (l: Line) => l.scanned

  datatype Step =
    | Scan(line: nat, quantity: real)
    | SetDamaged(line: nat, quantity: real)
    | PartialClose
    | DeskClose
    | Finalize(force: bool, openExceptions: nat)

  function Apply(s: Session, step: Step): Result<Session, Error> {
    match step
    case Scan(i, q) => if i < |s.lines| then Ok(s.(lines := s.lines[i := s.lines[i].(scanned := q)]))
        else Err(NoSuchLine)
    case SetDamaged(i, d) => if i < |s.lines| then Ok(s.(lines := s.lines[i := s.lines[i].(damaged := d)]))
        else Err(NoSuchLine)
    case PartialClose =>
      if s.status == Closed || s.status == Completed then Err(AlreadyClosed)
      else if s.status == Draft then Err(NotActive)
      else if Total(s.lines, SCANNED) <= 0.0 then Err(NothingScanned)
      else Ok(Close(s, PartiallyReceived))
    case DeskClose => if s.status == Closed || s.status == Completed then Err(AlreadyClosed) else Ok(Close(s, Closed))
    case Finalize(force, openExceptions) =>
      if s.status == Closed || s.status == Completed then Err(AlreadyClosed)
      else if s.stockPosted then Err(AlreadyPosted)
      else if s.status != Verifying && s.status != PartiallyReceived && !force then Err(NotVerified)
      else if openExceptions > 0 && !force then Err(ExceptionsOpen)
      else Ok(Close(s, Completed))
  }

  predicate Closes(step: Step) { step.PartialClose? || step.DeskClose? || step.Finalize? }

  function Next(s: Session, step: Step): Session {
    match Apply(s, step)
    case Ok(t) => t
    case Err(_) => s
  }

  function Run(s: Session, steps: seq<Step>): Session {
    if |steps| == 0 then s else Next(Run(s, steps[..|steps| - 1]), steps[|steps| - 1])
  }

  // What one close moves

  lemma {:induction false} PostLinesAt(
    stock: map<(Item, Place), real>, lines: seq<Line>, n: nat, item: Item, place: Place)
    requires n <= |lines|
    ensures At(PostLines(stock, lines, n), item, place) == At(stock, item, place) + Sum(lines, PartOf(item, place), n)
  {
    if n > 0 {
      PostLinesAt(stock, lines, n - 1, item, place);
    }
  }

  lemma {:induction false} EntriesTotal(lines: seq<Line>, n: nat, item: Item)
    requires n <= |lines|
    ensures Total(Entries(lines, n), QuantityOf(item)) == Sum(lines, DeltaOf(item), n)
  {
    if n > 0 {
      EntriesTotal(lines, n - 1, item);
      TotalPush(Entries(lines, n - 1), Entry(lines[n - 1].item, Delta(lines[n - 1])), QuantityOf(item));
    }
  }

  lemma {:induction false} InspectionsTotal(lines: seq<Line>, n: nat, item: Item)
    requires n <= |lines|
    ensures Total(Inspections(lines, n), QuantityOf(item)) == Sum(lines, PartOf(item, Hold), n)
  {
    if n > 0 {
      InspectionsTotal(lines, n - 1, item);
      TotalPush(Inspections(lines, n - 1), Entry(lines[n - 1].item, GoodNow(lines[n - 1])), QuantityOf(item));
    }
  }

  lemma {:induction false} PartsAddUp(lines: seq<Line>, item: Item, n: nat)
    requires n <= |lines|
    ensures Sum(lines, PartOf(item, Damaged), n) + Sum(lines, PartOf(item, Hold), n)
            + Sum(lines, PartOf(item, Incoming), n)
              == Sum(lines, DeltaOf(item), n)
  {
    if n > 0 {
      PartsAddUp(lines, item, n - 1);
    }
  }

  function OnHand(stock: map<(Item, Place), real>, item: Item): real {
    At(stock, item, Damaged) + At(stock, item, Hold) + At(stock, item, Incoming)
  }

  /** In one close locations, ledger and line deltas move by the same amount of every item, and what goes
      to hold is what inspections are raised for. */
  lemma CloseMovesAlike(s: Session, status: Status, item: Item)
    ensures var t, delta := Close(s, status), Total(s.lines, DeltaOf(item));
            && OnHand(t.stock, item) == OnHand(s.stock, item) + delta
            && Total(t.ledger, QuantityOf(item)) == Total(s.ledger, QuantityOf(item)) + delta
            && Total(t.lines, PostedOf(item)) == Total(s.lines, PostedOf(item)) + delta
            && Total(t.inspections, QuantityOf(item)) - Total(s.inspections, QuantityOf(item))
               == At(t.stock, item, Hold) - At(s.stock, item, Hold)
  {
    var n, t := |s.lines|, Close(s, status);
    PostLinesAt(s.stock, s.lines, n, item, Damaged);
    PostLinesAt(s.stock, s.lines, n, item, Hold);
    PostLinesAt(s.stock, s.lines, n, item, Incoming);
    PartsAddUp(s.lines, item, n);
    EntriesTotal(s.lines, n, item);
    TotalAppend(s.ledger, Entries(s.lines, n), QuantityOf(item));
    InspectionsTotal(s.lines, n, item);
    TotalAppend(s.inspections, Inspections(s.lines, n), QuantityOf(item));
    TotalAdd(s.lines, PostedOf(item), s.lines, DeltaOf(item), t.lines, PostedOf(item));
  }

  // The purchase order

  /** What crediting every copy of a code with `delta` gives a row. */
  function CreditOf(item: Item, delta: real): PoRow -> real { (r: PoRow) => if r.item == item then delta else 0.0 }

  lemma OneMore(copies: real, copy: real, delta: real)
    requires copy == 0.0 || copy == 1.0
    ensures (copies + copy) * delta == copies * delta + if copy == 1.0 then delta else 0.0
  {
  }

  lemma {:induction false} CreditsAre(rows: seq<PoRow>, item: Item, delta: real, k: nat)
    requires k <= |rows|
    ensures Sum(rows, CreditOf(item, delta), k) == Sum(rows, CopiesOf(item), k) * delta
  {
    if k > 0 {
      CreditsAre(rows, item, delta, k - 1);
      OneMore(Sum(rows, CopiesOf(item), k - 1), CopiesOf(item)(rows[k - 1]), delta);
    }
  }

  lemma ReceivedTotal(rows: seq<PoRow>, lines: seq<Line>, item: Item)
    ensures Total(ReceivedRows(rows, lines), ReceivedOf(item))
              == Total(rows, ReceivedOf(item)) + Total(rows, CopiesOf(item)) * Total(lines, DeltaOf(item))
  {
    var delta := Total(lines, DeltaOf(item));
    TotalAdd(rows, ReceivedOf(item), rows, CreditOf(item, delta), ReceivedRows(rows, lines), ReceivedOf(item));
    CreditsAre(rows, item, delta, |rows|);
  }

  lemma ProductIsFactor(a: real, b: real)
    ensures a * b == b <==> (b == 0.0 || a == 1.0)
  {
    assert a * b - b == (a - 1.0) * b;
  }

  /** An item's received quantity on the order rises by exactly what the close received of it, if and only
      if nothing new was received or exactly one row of the order carries the code: with a code repeated,
      every copy is credited in full, and without one nothing is. */
  lemma PoRisesByDeltaIff(po: Po, lines: seq<Line>, item: Item)
    ensures var delta := Total(lines, DeltaOf(item));
            (Total(ReceivePo(po, lines).rows, ReceivedOf(item)) == Total(po.rows, ReceivedOf(item)) + delta)
              <==> (delta == 0.0 || Total(po.rows, CopiesOf(item)) == 1.0)
  {
    ReceivedTotal(po.rows, lines, item);
    ProductIsFactor(Total(po.rows, CopiesOf(item)), Total(lines, DeltaOf(item)));
  }

  ghost predicate UniqueCodes(rows: seq<PoRow>) {
    forall i, j :: 0 <= i < j < |rows| ==> rows[i].item != rows[j].item
  }

  lemma {:induction false} OneCopy(rows: seq<PoRow>, item: Item, k: nat)
    requires UniqueCodes(rows) && k <= |rows|
    ensures Sum(rows, CopiesOf(item), k) == if exists j :: 0 <= j < k && rows[j].item == item then 1.0 else 0.0
  {
    if k > 0 {
      OneCopy(rows, item, k - 1);
    }
  }

  lemma DivideMonotone(a: real, b: real, q: real)
    requires a <= b && 0.0 < q
    ensures a / q * 100.0 <= b / q * 100.0
  {
    assert a / q <= b / q;
  }

  /** More is never less: receiving only raises the percentage, which stays within 100. */
  lemma ReceivingRaisesPercent(rows: seq<PoRow>, lines: seq<Line>)
    ensures Percent(rows) <= Percent(ReceivedRows(rows, lines)) <= 100.0
  {
    var r := ReceivedRows(rows, lines);
    TotalSame(r, ORDERED, rows, ORDERED);
    forall j | 0 <= j < |rows| ensures RECEIVED(rows[j]) <= RECEIVED(r[j]) {
      TotalNonNegative(lines, DeltaOf(rows[j].item));
    }
    TotalLe(rows, RECEIVED, r, RECEIVED);
    if Total(rows, ORDERED) > 0.0 {
      DivideMonotone(Total(rows, RECEIVED), Total(r, RECEIVED), Total(rows, ORDERED));
    }
  }

  lemma NothingNew(rows: seq<PoRow>, lines: seq<Line>)
    requires !AnyNew(lines)
    ensures ReceivedRows(rows, lines) == rows
  {
    forall j | 0 <= j < |rows| ensures ReceivedRows(rows, lines)[j] == rows[j] {
      TotalZero(lines, DeltaOf(rows[j].item), |lines|);
    }
  }

  /** The order after a close, whether or not the close touched it. */
  lemma PoAfter(s: Session, status: Status)
    requires s.po.Some?
    ensures var rows := ReceivedRows(s.po.value.rows, s.lines);
            && (!AnyNew(s.lines) ==> rows == s.po.value.rows)
            && Close(s, status).po == Some(if AnyNew(s.lines) then
                                           Po(rows, s.po.value.billed, Percent(rows),
                                              StatusFor(Percent(rows), s.po.value.billed))
                                           else s.po.value)
  {
    if !AnyNew(s.lines) { NothingNew(s.po.value.rows, s.lines); }
  }

  /** A fraction of the whole as a percentage, cut off at a hundred. */
  lemma PercentIs(received: real, ordered: real)
    requires 0.0 < ordered
    ensures var p := Min(received / ordered * 100.0, 100.0);
            && (received <= ordered ==> p * ordered == 100.0 * received)
            && (p >= 100.0 <==> received >= ordered)
            && (p > 0.0 <==> received > 0.0)
  {
    var q := received / ordered;
    assert q * ordered == received;
    if received <= ordered {
      assert q <= 1.0;
      assert q * 100.0 * ordered == 100.0 * (q * ordered);
    }
  }

  /** What a close makes of an order: each row is credited with what is new under its code. When something is new
      and something is ordered at all, the percentage is received against ordered, cut off at a hundred; the order
      counts as received exactly when all of it is, and as billed exactly when all of it is billed. */
  lemma OrderAfterClose(s: Session, step: Step)
    requires Closes(step) && Apply(s, step).Ok? && s.po.Some?
    ensures Next(s, step).po.Some?
    ensures var was, po := s.po.value, Next(s, step).po.value;
            var ordered, received := Total(po.rows, ORDERED), Total(po.rows, RECEIVED);
            && po.billed == was.billed && |po.rows| == |was.rows|
            && (forall j :: 0 <= j < |po.rows| ==> po.rows[j] == was.rows[j].(received :=
                was.rows[j].received + Total(s.lines, DeltaOf(was.rows[j].item))))
            && ((forall i :: 0 <= i < |s.lines| ==> s.lines[i].scanned <= s.lines[i].posted) ==> po == was)
            && ((exists i :: 0 <= i < |s.lines| && s.lines[i].scanned > s.lines[i].posted) ==>
                  if 0.0 < ordered then
                    && (received <= ordered ==> po.per * ordered == 100.0 * received)
                    && (received >= ordered ==> po.per == 100.0)
                    && (po.status == PoCompleted <==> received >= ordered && po.billed >= 100.0)
                    && (po.status == ToBill <==> received >= ordered && po.billed < 100.0)
                    && (po.status == ToReceive <==> 0.0 < received < ordered && po.billed >= 100.0)
                  else po.per == 0.0 && po.status == ToReceiveAndBill)
  {
    var t := Next(s, step);
    PoAfter(s, t.status);
    assert t == Close(s, t.status);
    var rows := ReceivedRows(s.po.value.rows, s.lines);
    if 0.0 < Total(rows, ORDERED) {
      PercentIs(Total(rows, RECEIVED), Total(rows, ORDERED));
    }
  }

  // Closing again

  /** The part posted to a place between two levels of one line is the difference of its shares. */
  lemma PartIsShareGrowth(l: Line, place: Place)
    requires 0.0 <= l.posted
    ensures PartTo(l, place) == ShareTo(Posted(l), place) - ShareTo(l, place)
  {
  }

  lemma CloseAddsShares(s: Session, status: Status, item: Item, place: Place)
    requires forall i :: 0 <= i < |s.lines| ==> 0.0 <= s.lines[i].posted
    ensures var t := Close(s, status);
            At(t.stock, item, place) - At(s.stock, item, place)
                == Total(t.lines, ShareOf(item, place)) - Total(s.lines, ShareOf(item, place))
  {
    var t := Close(s, status);
    PostLinesAt(s.stock, s.lines, |s.lines|, item, place);
    forall i | 0 <= i < |s.lines| ensures
      ShareOf(item, place)(t.lines[i]) == ShareOf(item, place)(s.lines[i]) + PartOf(item, place)(s.lines[i])
    {
      PartIsShareGrowth(s.lines[i], place);
    }
    TotalAdd(s.lines, ShareOf(item, place), s.lines, PartOf(item, place), t.lines, ShareOf(item, place));
  }

  function WithScans(s: Session, scans: seq<real>): Session
    requires |scans| == |s.lines|
  {
    s.(lines := seq(|s.lines|, (i: int) requires 0 <= i < |s.lines| => s.lines[i].(scanned := scans[i])))
  }

  lemma {:induction false} DeltasSplit(
    s: Session, first: seq<real>, second: seq<real>, status: Status, item: Item, k: nat)
    requires |first| == |second| == |s.lines| && k <= |s.lines|
    requires forall i :: 0 <= i < |s.lines| ==> first[i] <= second[i]
    ensures Sum(WithScans(s, first).lines, DeltaOf(item), k)
              + Sum(WithScans(Close(WithScans(s, first), status), second).lines, DeltaOf(item), k)
              == Sum(WithScans(s, second).lines, DeltaOf(item), k)
  {
    if k > 0 {
      DeltasSplit(s, first, second, status, item, k - 1);
    }
  }

  function Twice(s: Session, first: seq<real>, second: seq<real>, status: Status, last: Status): Session
    requires |first| == |second| == |s.lines|
  {
    Close(WithScans(Close(WithScans(s, first), status), second), last)
  }

  function Once(s: Session, second: seq<real>, last: Status): Session
    requires |second| == |s.lines|
  {
    Close(WithScans(s, second), last)
  }

  lemma RescanKeepsShares(s: Session, scans: seq<real>, item: Item, place: Place)
    requires |scans| == |s.lines|
    ensures Total(WithScans(s, scans).lines, ShareOf(item, place)) == Total(s.lines, ShareOf(item, place))
  {
    TotalSame(WithScans(s, scans).lines, ShareOf(item, place), s.lines, ShareOf(item, place));
  }

  lemma SamePlaces(
    s: Session, first: seq<real>, second: seq<real>, status: Status, last: Status, item: Item, place: Place)
    requires |first| == |second| == |s.lines|
    requires forall i :: 0 <= i < |s.lines| ==> 0.0 <= s.lines[i].posted && first[i] <= second[i]
    ensures var twice, once := Twice(s, first, second, status, last), Once(s, second, last);
            twice.lines == once.lines && At(twice.stock, item, place) == At(once.stock, item, place)
  {
    var a := WithScans(s, first);
    var b := Close(a, status);
    assert Twice(s, first, second, status, last).lines == Once(s, second, last).lines;
    CloseAddsShares(a, status, item, place);
    CloseAddsShares(WithScans(b, second), last, item, place);
    CloseAddsShares(WithScans(s, second), last, item, place);
    RescanKeepsShares(s, first, item, place);
    RescanKeepsShares(b, second, item, place);
    RescanKeepsShares(s, second, item, place);
  }

  /** Closing at a first level of scanning and again at a higher one posts what a single close at the
      higher level would have: the same stock at every place, ledger total, inspections and posted lines. */
  lemma IncrementalIsOneShot(
    s: Session, first: seq<real>, second: seq<real>, status: Status, last: Status, item: Item, place: Place)
    requires |first| == |second| == |s.lines|
    requires forall i :: 0 <= i < |s.lines| ==> 0.0 <= s.lines[i].posted && first[i] <= second[i]
    ensures var twice, once := Twice(s, first, second, status, last), Once(s, second, last);
            && twice.lines == once.lines && twice.status == once.status
            && At(twice.stock, item, place) == At(once.stock, item, place)
            && Total(twice.ledger, QuantityOf(item)) == Total(once.ledger, QuantityOf(item))
            && Total(twice.inspections, QuantityOf(item)) == Total(once.inspections, QuantityOf(item))
  {
    var a := WithScans(s, first);
    SamePlaces(s, first, second, status, last, item, place);
    SamePlaces(s, first, second, status, last, item, Hold);
    CloseMovesAlike(a, status, item);
    CloseMovesAlike(WithScans(Close(a, status), second), last, item);
    CloseMovesAlike(WithScans(s, second), last, item);
    DeltasSplit(s, first, second, status, item, |s.lines|);
  }

  lemma RowsSplit(s: Session, first: seq<real>, second: seq<real>, status: Status, rows: seq<PoRow>)
    requires |first| == |second| == |s.lines| && forall i :: 0 <= i < |s.lines| ==> first[i] <= second[i]
    ensures ReceivedRows(ReceivedRows(rows, WithScans(s, first).lines),
                         WithScans(Close(WithScans(s, first), status), second).lines)
              == ReceivedRows(rows, WithScans(s, second).lines)
  {
    forall j | 0 <= j < |rows| ensures
      ReceivedRows(ReceivedRows(rows, WithScans(s, first).lines),
                   WithScans(Close(WithScans(s, first), status), second).lines)[j]
        == ReceivedRows(rows, WithScans(s, second).lines)[j]
    {
      DeltasSplit(s, first, second, status, rows[j].item, |s.lines|);
    }
  }

  lemma NewSplit(s: Session, first: seq<real>, second: seq<real>, status: Status)
    requires |first| == |second| == |s.lines| && forall i :: 0 <= i < |s.lines| ==> first[i] <= second[i]
    ensures AnyNew(WithScans(s, second).lines) <==>
            (AnyNew(WithScans(s, first).lines) || AnyNew(WithScans(Close(WithScans(s, first), status), second).lines))
  {
    var a, d := WithScans(s, first).lines, WithScans(s, second).lines;
    var c := WithScans(Close(WithScans(s, first), status), second).lines;
    assert forall i :: 0 <= i < |s.lines| ==>
      (d[i].scanned > d[i].posted <==> (a[i].scanned > a[i].posted || c[i].scanned > c[i].posted));
  }

  /** And it leaves the purchase order as a single close would: rows, percentage and status. */
  lemma IncrementalPo(s: Session, first: seq<real>, second: seq<real>, status: Status, last: Status)
    requires |first| == |second| == |s.lines| && forall i :: 0 <= i < |s.lines| ==> first[i] <= second[i]
    ensures Twice(s, first, second, status, last).po == Once(s, second, last).po
  {
    var a := WithScans(s, first);
    var c := WithScans(Close(a, status), second);
    if s.po.Some? {
      PoAfter(a, status);
      PoAfter(c, last);
      PoAfter(WithScans(s, second), last);
      RowsSplit(s, first, second, status, s.po.value.rows);
      NewSplit(s, first, second, status);
    }
  }

  function WithDamage(s: Session, i: nat, damaged: real): Session
    requires i < |s.lines|
  {
    s.(lines := s.lines[i := s.lines[i].(damaged := damaged)])
  }

  lemma DamageShares(s: Session, i: nat, changed: real, scans: seq<real>, item: Item)
    requires i < |s.lines| && |scans| == |s.lines|
    ensures Total(WithScans(WithDamage(s, i, changed), scans).lines, ShareOf(item, Damaged))
              == Total(s.lines, ShareOf(item, Damaged))
               + ShareOf(item, Damaged)(s.lines[i].(damaged := changed)) - ShareOf(item, Damaged)(s.lines[i])
  {
    TotalUpdate(s.lines, i, s.lines[i].(damaged := changed), ShareOf(item, Damaged));
    RescanKeepsShares(WithDamage(s, i, changed), scans, item, Damaged);
  }

  /** A damaged quantity changed between two closes leaves the damaged location as one close under the new
      quantity would if and only if the first close posts the same under the old and the new one: stock
      posted as good is not turned into damaged stock afterwards, nor back. */
  lemma DamageChangeIff(s: Session, i: nat, changed: real, second: seq<real>, status: Status, last: Status)
    requires i < |s.lines| && |second| == |s.lines|
    requires forall k :: 0 <= k < |s.lines| ==> 0.0 <= s.lines[k].posted && s.lines[k].scanned <= second[k]
    ensures var l := s.lines[i];
            var twice := Close(WithScans(WithDamage(Close(s, status), i, changed), second), last);
            var once := Close(WithScans(WithDamage(s, i, changed), second), last);
            (At(twice.stock, l.item, Damaged) == At(once.stock, l.item, Damaged)) <==>
            (DamagedNow(l) == DamagedNow(l.(damaged := changed)))
  {
    var l, item := s.lines[i], s.lines[i].item;
    var a := Close(s, status);
    var b := WithScans(WithDamage(a, i, changed), second);
    var c := WithScans(WithDamage(s, i, changed), second);
    assert Close(b, last).lines == Close(c, last).lines;
    CloseAddsShares(s, status, item, Damaged);
    CloseAddsShares(b, last, item, Damaged);
    CloseAddsShares(c, last, item, Damaged);
    DamageShares(a, i, changed, second, item);
    DamageShares(s, i, changed, second, item);
    PartIsShareGrowth(l, Damaged);
    PartIsShareGrowth(l.(damaged := changed), Damaged);
  }

  // Who may close

  predicate IsOver(status: Status) { status == Closed || status == Completed }

  /** A partial close needs a session that is under way and something scanned, and leaves it open for more; the desk
      may close any session that is not over; and one is finalised when nothing of it has been posted before and,
      unless forced, it has been verified or partly received and no exception is open. */
  ghost predicate MayClose(s: Session, step: Step)
    requires Closes(step)
  {
    match step
    case PartialClose => !IsOver(s.status) && s.status != Draft && 0.0 < Total(s.lines, SCANNED)
    case DeskClose => !IsOver(s.status)
    case Finalize(force, openExceptions) =>
      && !IsOver(s.status) && !s.stockPosted
      && (force || (s.status in {Verifying, PartiallyReceived} && openExceptions == 0))
  }

  lemma ClosesIff(s: Session, step: Step)
    requires Closes(step)
    ensures Apply(s, step).Ok? <==> MayClose(s, step)
    ensures Apply(s, step).Ok? ==>
              && Next(s, step).stockPosted
              && Next(s, step).status == (if step.PartialClose? then PartiallyReceived
                                          else if step.DeskClose? then Closed else Completed)
    ensures Apply(s, step).Err? ==> Next(s, step) == s
  {
  }

  /** What has been moved and written down. */
  ghost predicate SamePostings(s: Session, t: Session) {
    && t.stock == s.stock && t.ledger == s.ledger && t.inspections == s.inspections && t.po == s.po
    && t.status == s.status && t.stockPosted == s.stockPosted
    && |t.lines| == |s.lines| && forall i :: 0 <= i < |s.lines| ==> t.lines[i].posted == s.lines[i].posted
  }

  lemma OverPostsNothing(s: Session, step: Step)
    requires IsOver(s.status)
    ensures SamePostings(s, Next(s, step))
  {
    if Closes(step) {
      ClosesIff(s, step);
    }
  }

  /** Once a session is closed or completed, no continuation posts anything or opens it again. */
  lemma {:induction false} OverIsFinal(s: Session, steps: seq<Step>)
    requires IsOver(s.status)
    ensures SamePostings(s, Run(s, steps))
  {
    if |steps| > 0 {
      OverIsFinal(s, steps[..|steps| - 1]);
      OverPostsNothing(Run(s, steps[..|steps| - 1]), steps[|steps| - 1]);
    }
  }

  /** A session that has posted stock once is never finalised: that close would be for the whole of it. */
  lemma {:induction false} PostedIsNotFinalised(s: Session, steps: seq<Step>, force: bool, openExceptions: nat)
    requires s.stockPosted
    ensures Run(s, steps).stockPosted && Apply(Run(s, steps), Finalize(force, openExceptions)).Err?
  {
    if |steps| > 0 {
      PostedIsNotFinalised(s, steps[..|steps| - 1], force, openExceptions);
    }
  }

  // Whole runs

  /** Nothing posted yet by this session; stock, ledger and order may hold anything. */
  ghost predicate Fresh(s: Session) { forall i :: 0 <= i < |s.lines| ==> s.lines[i].posted == 0.0 }

  function ScannedAt(s: Session, i: nat): real { if i < |s.lines| then s.lines[i].scanned else 0.0 }

  /** The highest level a line had been scanned to at any close. */
  function HighWater(s0: Session, steps: seq<Step>, i: nat): real
    requires i < |s0.lines|
  {
    if |steps| == 0 then s0.lines[i].posted
    else
      var head, last := steps[..|steps| - 1], steps[|steps| - 1];
      if Closes(last) && Apply(Run(s0, head), last).Ok? then Max(HighWater(s0, head, i), ScannedAt(Run(s0, head), i))
      else HighWater(s0, head, i)
  }

  lemma NextPosted(s: Session, step: Step, i: nat)
    requires i < |s.lines|
    ensures var t := Next(s, step);
            && i < |t.lines| && t.lines[i].item == s.lines[i].item
            && t.lines[i].posted == if Closes(step) && Apply(s, step).Ok? then
               Max(s.lines[i].posted, s.lines[i].scanned) else s.lines[i].posted
  {
  }

  /** A line's posted quantity is the running maximum of what was scanned at the closes. */
  lemma {:induction false} PostedIsHighWater(s0: Session, steps: seq<Step>, i: nat)
    requires i < |s0.lines|
    ensures i < |Run(s0, steps).lines| && Run(s0, steps).lines[i].posted == HighWater(s0, steps, i)
    ensures Run(s0, steps).lines[i].item == s0.lines[i].item
  {
    if |steps| > 0 {
      PostedIsHighWater(s0, steps[..|steps| - 1], i);
      NextPosted(Run(s0, steps[..|steps| - 1]), steps[|steps| - 1], i);
    }
  }

  ghost predicate SharesAt(s0: Session, s: Session, item: Item, place: Place) {
    At(s.stock, item, place) == At(s0.stock, item, place) + Total(s.lines, ShareOf(item, place))
  }

  ghost predicate PostedNonNegative(s: Session) { forall i :: 0 <= i < |s.lines| ==> 0.0 <= s.lines[i].posted }

  lemma NextKeepsPosted(s: Session, step: Step)
    requires PostedNonNegative(s)
    ensures PostedNonNegative(Next(s, step))
  {
  }

  lemma NextKeepsShares(s0: Session, s: Session, step: Step, item: Item, place: Place)
    requires SharesAt(s0, s, item, place) && PostedNonNegative(s) && !step.SetDamaged?
    ensures SharesAt(s0, Next(s, step), item, place)
  {
    if Apply(s, step).Ok? {
      if Closes(step) {
        CloseAddsShares(s, Next(s, step).status, item, place);
        assert Next(s, step) == Close(s, Next(s, step).status);
      } else {
        TotalSame(Next(s, step).lines, ShareOf(item, place), s.lines, ShareOf(item, place));
      }
    }
  }

  predicate DamageFixed(steps: seq<Step>) { forall k :: 0 <= k < |steps| ==> !steps[k].SetDamaged? }

  /** Over any run of scans and closes in which damaged quantities stay as they are: of each line exactly
      the smaller of its damaged and its posted quantity is in the damaged location, and the rest in hold
      or incoming, however many closes it took. */
  lemma {:induction false} RunSplits(s0: Session, steps: seq<Step>, item: Item, place: Place)
    requires Fresh(s0) && DamageFixed(steps)
    ensures SharesAt(s0, Run(s0, steps), item, place) && PostedNonNegative(Run(s0, steps))
  {
    if |steps| == 0 {
      TotalZero(s0.lines, ShareOf(item, place), |s0.lines|);
    } else {
      RunSplits(s0, steps[..|steps| - 1], item, place);
      NextKeepsPosted(Run(s0, steps[..|steps| - 1]), steps[|steps| - 1]);
      NextKeepsShares(s0, Run(s0, steps[..|steps| - 1]), steps[|steps| - 1], item, place);
    }
  }

  /** Damaged quantities are only ever raised. */
  predicate DamageGrows(s0: Session, steps: seq<Step>) {
    |steps| == 0
    || (var head, last := steps[..|steps| - 1], steps[|steps| - 1];
        DamageGrows(s0, head)
        && (last.SetDamaged? && last.line < |Run(s0, head).lines| ==>
            Run(s0, head).lines[last.line].damaged <= last.quantity))
  }

  /** Over any run in which damaged quantities only grow, no more is in the damaged location than the
      smaller of damaged and posted allows. */
  lemma {:induction false} RunBoundsDamaged(s0: Session, steps: seq<Step>, item: Item)
    requires Fresh(s0) && DamageGrows(s0, steps)
    ensures At(Run(s0, steps).stock, item, Damaged) <= At(s0.stock, item, Damaged)
            + Total(Run(s0, steps).lines, ShareOf(item, Damaged))
    ensures PostedNonNegative(Run(s0, steps))
  {
    if |steps| == 0 {
      TotalZero(s0.lines, ShareOf(item, Damaged), |s0.lines|);
    } else {
      var head, last := steps[..|steps| - 1], steps[|steps| - 1];
      var s := Run(s0, head);
      RunBoundsDamaged(s0, head, item);
      NextKeepsPosted(s, last);
      if Closes(last) && Apply(s, last).Ok? {
        CloseAddsShares(s, Next(s, last).status, item, Damaged);
        assert Next(s, last) == Close(s, Next(s, last).status);
      } else {
        TotalLe(s.lines, ShareOf(item, Damaged), Next(s, last).lines, ShareOf(item, Damaged));
      }
    }
  }

  /** Over any run at all, damage changed or not: locations, ledger and posted lines agree on every item. */
  ghost predicate Agrees(s0: Session, s: Session, item: Item) {
    && OnHand(s.stock, item) - OnHand(s0.stock, item) == Total(s.lines, PostedOf(item))
    && Total(s.ledger, QuantityOf(item)) - Total(s0.ledger, QuantityOf(item)) == Total(s.lines, PostedOf(item))
  }

  lemma {:induction false} RunAgrees(s0: Session, steps: seq<Step>, item: Item)
    requires Fresh(s0)
    ensures Agrees(s0, Run(s0, steps), item)
  {
    if |steps| == 0 {
      TotalZero(s0.lines, PostedOf(item), |s0.lines|);
    } else {
      var s, last := Run(s0, steps[..|steps| - 1]), steps[|steps| - 1];
      RunAgrees(s0, steps[..|steps| - 1], item);
      if Closes(last) && Apply(s, last).Ok? {
        CloseMovesAlike(s, Next(s, last).status, item);
        assert Next(s, last) == Close(s, Next(s, last).status);
      } else {
        TotalSame(Next(s, last).lines, PostedOf(item), s.lines, PostedOf(item));
      }
    }
  }

  ghost predicate PoAgrees(s0: Session, s: Session, item: Item) {
    && s0.po.Some? && s.po.Some?
    && Total(s.po.value.rows, CopiesOf(item)) == 1.0
    && Total(s.po.value.rows, ReceivedOf(item)) == Total(s0.po.value.rows, ReceivedOf(item))
       + Total(s.lines, PostedOf(item))
    && 0.0 <= s.po.value.per <= Percent(s.po.value.rows) <= 100.0
  }

  lemma ClosePoAgrees(s0: Session, s: Session, status: Status, item: Item)
    requires PoAgrees(s0, s, item)
    ensures PoAgrees(s0, Close(s, status), item) && s.po.value.per <= Close(s, status).po.value.per
  {
    var po, t := s.po.value, Close(s, status);
    PoAfter(s, status);
    CloseMovesAlike(s, status, item);
    PoRisesByDeltaIff(po, s.lines, item);
    ReceivingRaisesPercent(po.rows, s.lines);
    TotalSame(ReceivedRows(po.rows, s.lines), CopiesOf(item), po.rows, CopiesOf(item));
  }

  lemma NextPoAgrees(s0: Session, s: Session, step: Step, item: Item)
    requires PoAgrees(s0, s, item)
    ensures PoAgrees(s0, Next(s, step), item) && s.po.value.per <= Next(s, step).po.value.per
  {
    if Closes(step) && Apply(s, step).Ok? {
      ClosePoAgrees(s0, s, Next(s, step).status, item);
      assert Next(s, step) == Close(s, Next(s, step).status);
    } else {
      TotalSame(Next(s, step).lines, PostedOf(item), s.lines, PostedOf(item));
    }
  }

  lemma PercentSign(rows: seq<PoRow>)
    requires forall j :: 0 <= j < |rows| ==> 0.0 <= rows[j].received
    ensures 0.0 <= Percent(rows) <= 100.0
  {
    TotalNonNegative(rows, RECEIVED);
    if Total(rows, ORDERED) > 0.0 {
      DivideMonotone(0.0, Total(rows, RECEIVED), Total(rows, ORDERED));
    }
  }

  /** An order as earlier sessions may have left it: nothing received is negative, and the percentage is
      no further than that. */
  ghost predicate PartlyReceived(po: Po) {
    && (forall j :: 0 <= j < |po.rows| ==> 0.0 <= po.rows[j].received)
    && 0.0 <= po.per <= Percent(po.rows)
  }

  /** Over any run on an order with unique codes, whatever earlier sessions received on it: each ordered
      item's received quantity rises by exactly what was posted of it; the percentage received stays within
      100 and no step lowers it. */
  lemma {:induction false} RunReceives(s0: Session, steps: seq<Step>, item: Item)
    requires Fresh(s0) && s0.po.Some? && UniqueCodes(s0.po.value.rows) && PartlyReceived(s0.po.value)
    requires exists j :: 0 <= j < |s0.po.value.rows| && s0.po.value.rows[j].item == item
    ensures PoAgrees(s0, Run(s0, steps), item)
    ensures forall step: Step :: Next(Run(s0, steps), step).po.Some?
              && Run(s0, steps).po.value.per <= Next(Run(s0, steps), step).po.value.per
  {
    if |steps| == 0 {
      TotalZero(s0.lines, PostedOf(item), |s0.lines|);
      OneCopy(s0.po.value.rows, item, |s0.po.value.rows|);
      PercentSign(s0.po.value.rows);
    } else {
      RunReceives(s0, steps[..|steps| - 1], item);
      NextPoAgrees(s0, Run(s0, steps[..|steps| - 1]), steps[|steps| - 1], item);
    }
    forall step: Step {
      NextPoAgrees(s0, Run(s0, steps), step, item);
    }
  }

  // Runs that end where a law fails

  lemma RunTwo(s: Session, a: Step, b: Step)
    ensures Run(s, [a, b]) == Next(Next(s, a), b)
  {
    assert [a, b][..1] == [a] && [a][..0] == [];
    assert Run(s, [a]) == Next(s, a);
  }

  lemma RunThree(s: Session, a: Step, b: Step, c: Step)
    ensures Run(s, [a, b, c]) == Next(Next(Next(s, a), b), c)
  {
    assert [a, b, c][..2] == [a, b];
    RunTwo(s, a, b);
  }

  lemma RunFour(s: Session, a: Step, b: Step, c: Step, d: Step)
    ensures Run(s, [a, b, c, d]) == Next(Next(Next(Next(s, a), b), c), d)
  {
    assert [a, b, c, d][..3] == [a, b, c];
    RunThree(s, a, b, c);
  }

  /** Five bolts to come, on an order that names them twice. */
  const BOLTS := Line("BOLT", 0.0, 0.0, false, 0.0)
  const BOLTS_TWICE := Po([PoRow("BOLT", 5.0, 0.0), PoRow("BOLT", 5.0, 0.0)], 0.0, 0.0, ToReceiveAndBill)
  const AWAITED := Session([BOLTS], map[], [], [], Some(BOLTS_TWICE), Receiving, false)

  /** Five bolts received of a code that stands on the order twice are ten received on the order. */
  lemma RepeatedCodeIsCreditedTwice()
    ensures Fresh(AWAITED)
    ensures var t := Run(AWAITED, [Scan(0, 5.0), PartialClose]);
            t.po.Some? && Total(t.lines, PostedOf("BOLT")) == 5.0 && Total(t.po.value.rows, ReceivedOf("BOLT")) == 10.0
  {
    RunTwo(AWAITED, Scan(0, 5.0), PartialClose);
    var s := Next(AWAITED, Scan(0, 5.0));
    TotalOfOne(s.lines, SCANNED);
    TotalOfOne(s.lines, DeltaOf("BOLT"));
    assert s.lines[0].scanned > s.lines[0].posted;
    var t := Close(s, PartiallyReceived);
    TotalOfOne(t.lines, PostedOf("BOLT"));
    TotalOfTwo(t.po.value.rows, ReceivedOf("BOLT"));
  }

  /** A partial close of a session with a single line. */
  lemma ClosesOne(s: Session, l: Line)
    requires s.lines == [l] && (s.status == Receiving || s.status == PartiallyReceived) && 0.0 < l.scanned
    ensures var t := Next(s, PartialClose);
            && t.lines == [Posted(l)] && t.status == PartiallyReceived
            && At(t.stock, l.item, Damaged) == At(s.stock, l.item, Damaged) + DamagedNow(l)
  {
    TotalOfOne(s.lines, SCANNED);
    PostLinesAt(s.stock, s.lines, 1, l.item, Damaged);
    TotalOfOne(s.lines, PartOf(l.item, Damaged));
  }

  lemma ChangesOne(s: Session, l: Line)
    requires s.lines == [l]
    ensures Next(s, Scan(0, 5.0)) == s.(lines := [l.(scanned := 5.0)])
    ensures Next(s, SetDamaged(0, 5.0)) == s.(lines := [l.(damaged := 5.0)])
  {
  }

  lemma DamageFoundLate()
    ensures At(Run(AWAITED, [Scan(0, 5.0), PartialClose, SetDamaged(0, 5.0), PartialClose]).stock, "BOLT", Damaged)
            == 0.0
  {
    RunFour(AWAITED, Scan(0, 5.0), PartialClose, SetDamaged(0, 5.0), PartialClose);
    var l := BOLTS.(scanned := 5.0);
    ChangesOne(AWAITED, BOLTS);
    var s := Next(AWAITED, Scan(0, 5.0));
    ClosesOne(s, l);
    var t := Next(s, PartialClose);
    ChangesOne(t, Posted(l));
    ClosesOne(Next(t, SetDamaged(0, 5.0)), Posted(l).(damaged := 5.0));
  }

  lemma DamageFoundEarly()
    ensures At(Run(AWAITED, [Scan(0, 5.0), SetDamaged(0, 5.0), PartialClose]).stock, "BOLT", Damaged) == 5.0
  {
    RunThree(AWAITED, Scan(0, 5.0), SetDamaged(0, 5.0), PartialClose);
    ChangesOne(AWAITED, BOLTS);
    var s := Next(AWAITED, Scan(0, 5.0));
    ChangesOne(s, BOLTS.(scanned := 5.0));
    ClosesOne(Next(s, SetDamaged(0, 5.0)), BOLTS.(scanned := 5.0, damaged := 5.0));
  }

  /** Five bolts found damaged after a partial close stay where good ones go; found before it, they would not. */
  lemma LateDamageStaysGood()
    ensures Fresh(AWAITED)
    ensures At(Run(AWAITED, [Scan(0, 5.0), PartialClose, SetDamaged(0, 5.0), PartialClose]).stock, "BOLT", Damaged)
            == 0.0
    ensures At(Run(AWAITED, [Scan(0, 5.0), SetDamaged(0, 5.0), PartialClose]).stock, "BOLT", Damaged) == 5.0
  {
    DamageFoundLate();
    DamageFoundEarly();
  }

  // The close as it runs

  /** How stock, ledger entries and inspections grow by one more line. */
  lemma NextLine(stock: map<(Item, Place), real>, lines: seq<Line>, i: nat)
    requires i < |lines|
    ensures var l := lines[i];
            && PostLines(stock, lines, i + 1)
                 == (if l.scanned > l.posted then PostLine(PostLines(stock, lines, i), l)
                     else PostLines(stock, lines, i))
            && Entries(lines, i + 1) == Entries(lines, i)
               + (if l.scanned > l.posted then [Entry(l.item, l.scanned - l.posted)] else [])
            && Inspections(lines, i + 1) == Inspections(lines, i)
               + (if l.scanned > l.posted then Inspections([l], 1) else [])
  {
    assert Inspections([lines[i]], 0) == [];
  }

  class GrnSession {
    var lines: seq<Line>
    var stock: map<(Item, Place), real>
    var ledger: seq<Entry>
    var inspections: seq<Entry>
    var po: Option<Po>
    var status: Status
    var stockPosted: bool

    function View(): Session
      reads this
    {
      Session(lines, stock, ledger, inspections, po, status, stockPosted)
    }

    constructor (s: Session)
      ensures View() == s
    {
      lines, stock, ledger, inspections := s.lines, s.stock, s.ledger, s.inspections;
      po, status, stockPosted := s.po, s.status, s.stockPosted;
    }

    /** The damaged part of a line goes to the damaged location, the good part to hold or incoming. */
    method PostParts(l: Line, delta: real)
      requires delta == l.scanned - l.posted > 0.0
      modifies `stock, `inspections
      ensures stock == PostLine(old(stock), l)
      ensures inspections == old(inspections) + Inspections([l], 1)
    {
      var damaged := l.damaged - l.posted;
      if damaged < 0.0 { damaged := 0.0; }
      if damaged > delta { damaged := delta; }
      var good := delta - damaged;
      assert damaged == DamagedNow(l) && good == GoodNow(l);
      if damaged > 0.0 {
        stock := Adjust(stock, l.item, Damaged, damaged);
      }
      if good > 0.0 {
        var target := if l.requiresQI then Hold else Incoming;
        stock := Adjust(stock, l.item, target, good);
        if l.requiresQI {
          inspections := inspections + [Entry(l.item, good)];
        }
      }
    }

    /** One line: its two parts, the ledger entry and the counter. */
    method PostOne(i: nat)
      requires i < |lines|
      modifies `lines, `stock, `ledger, `inspections
      ensures var l := old(lines)[i];
              && lines == old(lines)[i := Posted(l)]
              && stock == (if l.scanned > l.posted then PostLine(old(stock), l) else old(stock))
              && ledger == old(ledger) + (if l.scanned > l.posted then [Entry(l.item, l.scanned - l.posted)] else [])
              && inspections == old(inspections) + (if l.scanned > l.posted then Inspections([l], 1) else [])
    {
      var l := lines[i];
      var delta := l.scanned - l.posted;
      if delta <= 0.0 { return; }
      PostParts(l, delta);
      ledger := ledger + [Entry(l.item, delta)];
      lines := lines[i := l.(posted := l.scanned)];
    }

    method PostNewlyScanned()
      modifies `lines, `stock, `ledger, `inspections
      ensures lines == PostedLines(old(lines))
      ensures stock == PostLines(old(stock), old(lines), |old(lines)|)
      ensures ledger == old(ledger) + Entries(old(lines), |old(lines)|)
      ensures inspections == old(inspections) + Inspections(old(lines), |old(lines)|)
    {
      ghost var was := lines;
      var i := 0;
      while i < |lines|
        invariant 0 <= i <= |lines| == |was|
        invariant forall j :: 0 <= j < i ==> lines[j] == Posted(was[j])
        invariant forall j :: i <= j < |was| ==> lines[j] == was[j]
        invariant stock == PostLines(old(stock), was, i)
        invariant ledger == old(ledger) + Entries(was, i)
        invariant inspections == old(inspections) + Inspections(was, i)
      {
        NextLine(old(stock), was, i);
        PostOne(i);
        i := i + 1;
      }
    }

    /** Sum what was received by item code. */
    static method SumByItem(lines: seq<Line>) returns (agg: map<Item, real>)
      ensures forall item :: (if item in agg then agg[item] else 0.0) == Total(lines, DeltaOf(item))
    {
      agg := map[];
      var i := 0;
      while i < |lines|
        invariant 0 <= i <= |lines|
        invariant forall item :: (if item in agg then agg[item] else 0.0) == Sum(lines, DeltaOf(item), i)
      {
        var d := lines[i].scanned - lines[i].posted;
        if d > 0.0 {
          var item := lines[i].item;
          agg := agg[item := (if item in agg then agg[item] else 0.0) + d];
        }
        i := i + 1;
      }
    }

    /** Credit the order item by item, in whatever order the map yields its keys. */
    static method CreditRows(rows: seq<PoRow>, agg: map<Item, real>, lines: seq<Line>) returns (r: seq<PoRow>)
      requires forall item :: (if item in agg then agg[item] else 0.0) == Total(lines, DeltaOf(item))
      ensures r == ReceivedRows(rows, lines)
    {
      r := rows;
      var left := agg.Keys;
      while left != {}
        invariant left <= agg.Keys && |r| == |rows|
        invariant forall j :: 0 <= j < |rows| ==> r[j] == rows[j].(received :=
          rows[j].received + if rows[j].item in agg && rows[j].item !in left then agg[rows[j].item] else 0.0)
        decreases |left|
      {
        var item :| item in left;
        r := seq(|r|, (j: int) requires 0 <= j < |r| => if r[j].item == item then
                 r[j].(received := r[j].received + agg[item]) else r[j]);
        left := left - {item};
      }
      forall j | 0 <= j < |rows| ensures r[j] == ReceivedRows(rows, lines)[j] {
        assert (if rows[j].item in agg then agg[rows[j].item] else 0.0) == Total(lines, DeltaOf(rows[j].item));
      }
    }

    /** Closes with a given final status; refused once the session is closed or completed. */
    method CloseSession(final: Status) returns (r: Result<(), Error>)
      modifies this
      ensures r.Err? <==> old(status) == Closed || old(status) == Completed
      ensures View() == if r.Ok? then Close(old(View()), final) else old(View())
    {
      if status == Closed || status == Completed { return Err(AlreadyClosed); }
      stockPosted := true;
      var scanned := lines;
      PostNewlyScanned();
      if po.Some? && AnyNew(scanned) {
        var agg := SumByItem(scanned);
        var rows := CreditRows(po.value.rows, agg, scanned);
        var per := Percent(rows);
        po := Some(Po(rows, po.value.billed, per, StatusFor(per, po.value.billed)));
      }
      status := final;
      return Ok(());
    }

    method CloseWithShortages() returns (r: Result<(), Error>)
      modifies this
      ensures r.Err? <==> Apply(old(View()), PartialClose).Err?
      ensures View() == Next(old(View()), PartialClose)
    {
      if status == Closed || status == Completed { return Err(AlreadyClosed); }
      if status == Draft { return Err(NotActive); }
      if Total(lines, SCANNED) <= 0.0 { return Err(NothingScanned); }
      r := CloseSession(PartiallyReceived);
    }

    method FinalizeGrn(force: bool, openExceptions: nat) returns (r: Result<(), Error>)
      modifies this
      ensures r.Err? <==> Apply(old(View()), Finalize(force, openExceptions)).Err?
      ensures View() == Next(old(View()), Finalize(force, openExceptions))
    {
      if status == Closed || status == Completed { return Err(AlreadyClosed); }
      if stockPosted { return Err(AlreadyPosted); }
      if status != Verifying && status != PartiallyReceived && !force { return Err(NotVerified); }
      if openExceptions > 0 && !force { return Err(ExceptionsOpen); }
      r := CloseSession(Completed);
    }
  }
}
