/** Reconciling received parts: box lines grouped by part, each box judged on its own and each part on its
    totals. */
module PartRollup {
  import opened Sums
  import opened Text
  import opened PoFold

  datatype Verdict = Fine | Over | Short | NotYet

  datatype BoxRecon = BoxRecon(box: string, expected: real, scanned: real, ok: bool, verdict: Verdict)

  datatype PartRecon = PartRecon(part: string, expected: real, scanned: real, ok: bool, boxes: seq<BoxRecon>)

  function Judge(expected: real, scanned: real): Verdict {
    if expected > 0.0 && scanned == expected then Fine
    else if expected > 0.0 && scanned > expected then Over
    else if scanned > 0.0 && expected > 0.0 && scanned < expected then Short
    else NotYet
  }

  function PartOf(l: Part): string { Trim(l.part) }

  const EXPECTED: Part -> real := (l: Part) => l.expected
  const SCANNED: Part -> real := (l: Part) => l.scanned

  /** The distinct parts in the order they first appear. */
  function PartsSeen(lines: seq<Part>, n: nat): (r: seq<string>)
    requires n <= |lines|
    ensures forall i, j :: 0 <= i < j < |r| ==> r[i] != r[j]
  {
    if n == 0 then []
    else
      var r, part := PartsSeen(lines, n - 1), PartOf(lines[n - 1]);
      if part == "" || part in r then r else r + [part]
  }

  /** The lines of one part, in input order. */
  function LinesOf(lines: seq<Part>, part: string, n: nat): seq<Part>
    requires n <= |lines|
  {
    if n == 0 then []
    else if PartOf(lines[n - 1]) == part then LinesOf(lines, part, n - 1) + [lines[n - 1]]
    else LinesOf(lines, part, n - 1)
  }

  /** A part is listed exactly when it has lines. */
  lemma {:induction false} SeenIffLines(lines: seq<Part>, part: string, n: nat)
    requires n <= |lines|
    ensures part in PartsSeen(lines, n) <==> part != "" && LinesOf(lines, part, n) != []
    decreases n
  {
    if n > 0 {
      SeenIffLines(lines, part, n - 1);
      SeenIffLines(lines, PartOf(lines[n - 1]), n - 1);
    }
  }

  function BoxOf(l: Part): BoxRecon {
    var box := Trim(l.box);
    BoxRecon(if box == "" then "CONSOLIDATED" else box, l.expected, l.scanned, Judge(l.expected, l.scanned)
             == Fine, Judge(l.expected, l.scanned))
  }

  function Boxes(lines: seq<Part>): (r: seq<BoxRecon>)
    ensures |r| == |lines|
  {
    seq(|lines|, (i: int) requires 0 <= i < |lines| => BoxOf(lines[i]))
  }

  function Recon(part: string, lines: seq<Part>): PartRecon {
    var expected, scanned := Total(lines, EXPECTED), Total(lines, SCANNED);
    PartRecon(part, expected, scanned, Judge(expected, scanned) == Fine, Boxes(lines))
  }

  function Rollup(lines: seq<Part>): (r: seq<PartRecon>)
    ensures |r| == |PartsSeen(lines, |lines|)|
  {
    var parts := PartsSeen(lines, |lines|);
    seq(|parts|, (k: int) requires 0 <= k < |parts| => Recon(parts[k], LinesOf(lines, parts[k], |lines|)))
  }

  // A partition of the input

  /** Where the lines of a part stand among the first `n`. */
  function Positions(lines: seq<Part>, part: string, n: nat): (r: seq<nat>)
    requires n <= |lines|
    ensures forall b :: 0 <= b < |r| ==> r[b] < n
    ensures forall b, c :: 0 <= b < c < |r| ==> r[b] < r[c]
    ensures forall i: nat :: i in r <==> i < n && PartOf(lines[i]) == part
  {
    if n == 0 then []
    else if PartOf(lines[n - 1]) == part then Positions(lines, part, n - 1) + [n - 1]
    else Positions(lines, part, n - 1)
  }

  lemma {:induction false} LinesCount(lines: seq<Part>, part: string, n: nat)
    requires n <= |lines|
    ensures |LinesOf(lines, part, n)| == |Positions(lines, part, n)|
  {
    if n > 0 {
      LinesCount(lines, part, n - 1);
    }
  }

  lemma {:induction false} LineStands(lines: seq<Part>, part: string, n: nat, b: nat)
    requires n <= |lines| && b < |Positions(lines, part, n)| == |LinesOf(lines, part, n)|
    ensures LinesOf(lines, part, n)[b] == lines[Positions(lines, part, n)[b]]
  {
    LinesCount(lines, part, n - 1);
    if b < |Positions(lines, part, n - 1)| {
      LineStands(lines, part, n - 1, b);
    }
  }

  lemma LinesStand(lines: seq<Part>, part: string)
    ensures var at, own := Positions(lines, part, |lines|), LinesOf(lines, part, |lines|);
            |own| == |at| && forall b :: 0 <= b < |at| ==> own[b] == lines[at[b]]
  {
    var at, own := Positions(lines, part, |lines|), LinesOf(lines, part, |lines|);
    LinesCount(lines, part, |lines|);
    forall b | 0 <= b < |at| ensures own[b] == lines[at[b]] {
      LineStands(lines, part, |lines|, b);
    }
  }

  /** Where a part is first seen. */
  function FirstAt(lines: seq<Part>, part: string, n: nat): nat
    requires n <= |lines| && Positions(lines, part, n) != []
  {
    Positions(lines, part, n)[0]
  }

  lemma FirstStays(lines: seq<Part>, part: string, n: nat)
    requires 0 < n <= |lines| && Positions(lines, part, n - 1) != []
    ensures Positions(lines, part, n) != [] && FirstAt(lines, part, n) == FirstAt(lines, part, n - 1) < n - 1
  {
  }

  lemma FirstNow(lines: seq<Part>, n: nat)
    requires 0 < n <= |lines| && Positions(lines, PartOf(lines[n - 1]), n - 1) == []
    ensures Positions(lines, PartOf(lines[n - 1]), n) != [] && FirstAt(lines, PartOf(lines[n - 1]), n) == n - 1
  {
  }

  lemma SeenHasPosition(lines: seq<Part>, part: string, n: nat)
    requires n <= |lines| && part != ""
    ensures part in PartsSeen(lines, n) <==> Positions(lines, part, n) != []
  {
    SeenIffLines(lines, part, n);
    LinesCount(lines, part, n);
  }

  /** The parts seen so far are listed by where each is first seen. */
  lemma {:induction false} SeenInOrder(lines: seq<Part>, n: nat, k: nat, m: nat)
    requires n <= |lines| && k < m < |PartsSeen(lines, n)|
    ensures var seen := PartsSeen(lines, n);
            && Positions(lines, seen[k], n) != [] && Positions(lines, seen[m], n) != []
            && FirstAt(lines, seen[k], n) < FirstAt(lines, seen[m], n)
  {
    var seen, before := PartsSeen(lines, n), PartsSeen(lines, n - 1);
    if m < |before| {
      SeenInOrder(lines, n - 1, k, m);
      FirstStays(lines, before[k], n);
      FirstStays(lines, before[m], n);
    } else {
      SeenIffLines(lines, before[k], n - 1);
      SeenHasPosition(lines, before[k], n - 1);
      SeenHasPosition(lines, seen[m], n - 1);
      FirstStays(lines, before[k], n);
      FirstNow(lines, n);
    }
  }

  ghost predicate StandInOrder(lines: seq<Part>, r: PartRecon) {
    var at := Positions(lines, r.part, |lines|);
    |r.boxes| == |at| && forall b :: 0 <= b < |at| ==> r.boxes[b] == BoxOf(lines[at[b]])
  }

  /** Every line with a part stands under that part and no other; the parts stand in the order in which they
      are first seen; and a part's boxes are those of its lines, each once and in input order: `Positions`
      lists every line of the part, from first to last. */
  lemma RollupPartitions(lines: seq<Part>)
    ensures var r := Rollup(lines);
            && (forall k, m :: 0 <= k < m < |r| ==> r[k].part != r[m].part)
            && (forall i :: 0 <= i < |lines| && PartOf(lines[i]) != "" ==>
                  exists k :: 0 <= k < |r| && r[k].part == PartOf(lines[i]))
            && (forall k :: 0 <= k < |r| ==>
                  r[k].part != "" && StandInOrder(lines, r[k]) && Positions(lines, r[k].part, |lines|) != [])
            && (forall k, m :: 0 <= k < m < |r| ==>
                  FirstAt(lines, r[k].part, |lines|) < FirstAt(lines, r[m].part, |lines|))
  {
    var r, parts := Rollup(lines), PartsSeen(lines, |lines|);
    forall k, m | 0 <= k < m < |r|
      ensures Positions(lines, r[k].part, |lines|) != [] && Positions(lines, r[m].part, |lines|) != []
      ensures FirstAt(lines, r[k].part, |lines|) < FirstAt(lines, r[m].part, |lines|)
    {
      SeenInOrder(lines, |lines|, k, m);
    }
    forall k | 0 <= k < |r|
      ensures r[k].part != "" && StandInOrder(lines, r[k]) && Positions(lines, r[k].part, |lines|) != []
    {
      assert parts[k] in parts;
      SeenIffLines(lines, parts[k], |lines|);
      LinesStand(lines, parts[k]);
    }
    forall i | 0 <= i < |lines| && PartOf(lines[i]) != ""
      ensures exists k :: 0 <= k < |r| && r[k].part == PartOf(lines[i])
    {
      var part := PartOf(lines[i]);
      assert i in Positions(lines, part, |lines|);
      LinesStand(lines, part);
      SeenIffLines(lines, part, |lines|);
      var k :| 0 <= k < |parts| && parts[k] == part;
      assert r[k].part == part;
    }
  }

  function InParts(parts: seq<string>, f: Part -> real): Part -> real {
    (l: Part) => if PartOf(l) in parts then f(l) else 0.0
  }

  function OfPart(part: string, f: Part -> real): Part -> real { (l: Part) => if PartOf(l) == part then f(l) else 0.0 }

  lemma {:induction false} LinesOfTotal(lines: seq<Part>, part: string, f: Part -> real, n: nat)
    requires n <= |lines|
    ensures Total(LinesOf(lines, part, n), f) == Sum(lines, OfPart(part, f), n)
  {
    if n > 0 {
      LinesOfTotal(lines, part, f, n - 1);
      TotalPush(LinesOf(lines, part, n - 1), lines[n - 1], f);
    }
  }

  function PartTotal(lines: seq<Part>, f: Part -> real): string -> real {
    (part: string) => Total(LinesOf(lines, part, |lines|), f)
  }

  lemma {:induction false} GroupsTotal(lines: seq<Part>, parts: seq<string>, f: Part -> real)
    requires forall i, j :: 0 <= i < j < |parts| ==> parts[i] != parts[j]
    ensures Total(parts, PartTotal(lines, f)) == Total(lines, InParts(parts, f))
  {
    if |parts| == 0 {
      TotalZero(lines, InParts(parts, f), |lines|);
    } else {
      var head, last := parts[..|parts| - 1], parts[|parts| - 1];
      assert parts == head + [last];
      GroupsTotal(lines, head, f);
      TotalPush(head, last, PartTotal(lines, f));
      LinesOfTotal(lines, last, f, |lines|);
      TotalAdd(lines, InParts(head, f), lines, OfPart(last, f), lines, InParts(parts, f));
    }
  }

  const RECON_EXPECTED: PartRecon -> real := (r: PartRecon) => r.expected
  const RECON_SCANNED: PartRecon -> real := (r: PartRecon) => r.scanned

  /** The parts' totals add up to what the lines with a part expect and have scanned. */
  lemma RollupConserves(lines: seq<Part>)
    ensures Total(Rollup(lines), RECON_EXPECTED) == Total(lines, InParts(PartsSeen(lines, |lines|), EXPECTED))
    ensures Total(Rollup(lines), RECON_SCANNED) == Total(lines, InParts(PartsSeen(lines, |lines|), SCANNED))
  {
    var parts := PartsSeen(lines, |lines|);
    GroupsTotal(lines, parts, EXPECTED);
    GroupsTotal(lines, parts, SCANNED);
    TotalSame(Rollup(lines), RECON_EXPECTED, parts, PartTotal(lines, EXPECTED));
    TotalSame(Rollup(lines), RECON_SCANNED, parts, PartTotal(lines, SCANNED));
  }

  // Verdicts

  /** A part is in order exactly when something is expected of it and exactly that was scanned, over all its boxes; and
      each of its boxes is judged on its own line, under the number written there or as consolidated goods. */
  lemma PartIs(lines: seq<Part>, k: nat)
    requires k < |Rollup(lines)|
    ensures var r := Rollup(lines)[k];
            && (r.ok <==> 0.0 < r.expected == r.scanned)
            && r.expected == Sum(lines, OfPart(r.part, EXPECTED), |lines|)
            && r.scanned == Sum(lines, OfPart(r.part, SCANNED), |lines|)
            && (forall b :: 0 <= b < |r.boxes| ==>
                  && (r.boxes[b].ok <==> r.boxes[b].verdict == Fine)
                  && (r.boxes[b].verdict == Fine <==> 0.0 < r.boxes[b].expected == r.boxes[b].scanned)
                  && (r.boxes[b].verdict == Over <==> 0.0 < r.boxes[b].expected < r.boxes[b].scanned)
                  && (r.boxes[b].verdict == Short <==> 0.0 < r.boxes[b].scanned < r.boxes[b].expected))
  {
    var part := PartsSeen(lines, |lines|)[k];
    LinesOfTotal(lines, part, EXPECTED, |lines|);
    LinesOfTotal(lines, part, SCANNED, |lines|);
  }

  /** The box a line is shown as. */
  lemma BoxIs(lines: seq<Part>, k: nat, b: nat)
    requires k < |Rollup(lines)| && b < |Positions(lines, Rollup(lines)[k].part, |lines|)|
    ensures b < |Rollup(lines)[k].boxes|
    ensures var l, box := lines[Positions(lines, Rollup(lines)[k].part, |lines|)[b]], Rollup(lines)[k].boxes[b];
            && box.expected == l.expected && box.scanned == l.scanned
            && box.box == if Trim(l.box) == "" then "CONSOLIDATED" else Trim(l.box)
  {
    RollupPartitions(lines);
    assert StandInOrder(lines, Rollup(lines)[k]);
  }

  lemma {:induction false} AllFine(lines: seq<Part>, n: nat)
    requires n <= |lines| && forall i :: 0 <= i < |lines| ==> Judge(lines[i].expected, lines[i].scanned) == Fine
    ensures Sum(lines, EXPECTED, n) == Sum(lines, SCANNED, n) && (n > 0 ==> Sum(lines, EXPECTED, n) > 0.0)
  {
    if n > 0 {
      AllFine(lines, n - 1);
    }
  }

  /** A part whose boxes are all in order is in order itself. */
  lemma BoxesFineThenPartFine(lines: seq<Part>, k: nat)
    requires k < |Rollup(lines)| && forall b :: 0 <= b < |Rollup(lines)[k].boxes| ==> Rollup(lines)[k].boxes[b].ok
    ensures Rollup(lines)[k].ok
  {
    var part := PartsSeen(lines, |lines|)[k];
    var group := LinesOf(lines, part, |lines|);
    SeenIffLines(lines, part, |lines|);
    assert part in PartsSeen(lines, |lines|);
    forall b | 0 <= b < |group| ensures Judge(group[b].expected, group[b].scanned) == Fine {
      assert Rollup(lines)[k].boxes[b].ok;
    }
    AllFine(group, |group|);
  }

  const SURPLUS := Part("BOLT", "B1", 2.0, 3.0)
  const SHORTFALL := Part("BOLT", "B2", 2.0, 1.0)

  lemma OnePart(lines: seq<Part>, part: string)
    requires |lines| == 2 && PartOf(lines[0]) == PartOf(lines[1]) == part != ""
    ensures PartsSeen(lines, 2) == [part] && LinesOf(lines, part, 2) == lines
  {
    assert PartsSeen(lines, 0) == [] && LinesOf(lines, part, 0) == [];
    assert PartsSeen(lines, 1) == [part] && LinesOf(lines, part, 1) == [lines[0]];
  }

  /** The other way round it fails: a surplus in one box makes up for a shortage in another. */
  lemma PartFineBoxesNot()
    ensures var r := Rollup([SURPLUS, SHORTFALL]);
            |r| == 1 && r[0].ok && |r[0].boxes| == 2 && r[0].boxes[0].verdict == Over && r[0].boxes[1].verdict == Short
  {
    var lines := [SURPLUS, SHORTFALL];
    TrimIsTrimmed("BOLT");
    OnePart(lines, "BOLT");
    TotalOfTwo(lines, EXPECTED);
    TotalOfTwo(lines, SCANNED);
    assert Rollup(lines)[0] == Recon("BOLT", lines);
  }

  // The loops as they run

  /** Where the grouping loop stands after `k` lines. */
  ghost predicate Grouped(lines: seq<Part>, k: nat, order: seq<string>, grouped: map<string, seq<Part>>) {
    && k <= |lines| && order == PartsSeen(lines, k)
    && (forall part :: part in grouped <==> part in order)
    && (forall part :: part in grouped ==> grouped[part] == LinesOf(lines, part, k))
  }

  lemma GroupStep(lines: seq<Part>, k: nat, order: seq<string>, grouped: map<string, seq<Part>>)
    requires Grouped(lines, k, order, grouped) && k < |lines|
    ensures var part := PartOf(lines[k]);
            if part == "" then Grouped(lines, k + 1, order, grouped)
            else if part in grouped then Grouped(lines, k + 1, order, grouped[part := grouped[part] + [lines[k]]])
            else Grouped(lines, k + 1, order + [part], grouped[part := [] + [lines[k]]])
  {
    SeenIffLines(lines, "", k);
    SeenIffLines(lines, PartOf(lines[k]), k);
  }

  /** Group the lines, keeping the order in which parts appear. */
  method Group(lines: seq<Part>) returns (order: seq<string>, grouped: map<string, seq<Part>>)
    ensures order == PartsSeen(lines, |lines|)
    ensures forall part :: part in order ==> part in grouped && grouped[part] == LinesOf(lines, part, |lines|)
  {
    order, grouped := [], map[];
    var k := 0;
    while k < |lines|
      invariant Grouped(lines, k, order, grouped)
    {
      GroupStep(lines, k, order, grouped);
      var part := PartOf(lines[k]);
      if part != "" {
        if part !in grouped {
          order, grouped := order + [part], grouped[part := []];
        }
        grouped := grouped[part := grouped[part] + [lines[k]]];
      }
      k := k + 1;
    }
  }

  /** One part: totals and boxes in one pass. */
  method ReconcilePart(part: string, lines: seq<Part>) returns (r: PartRecon)
    ensures r == Recon(part, lines)
  {
    var expected, scanned, boxes, b := 0.0, 0.0, [], 0;
    while b < |lines|
      invariant 0 <= b <= |lines|
      invariant expected == Sum(lines, EXPECTED, b) && scanned == Sum(lines, SCANNED, b)
      invariant |boxes| == b && forall i :: 0 <= i < b ==> boxes[i] == BoxOf(lines[i])
    {
      expected, scanned := expected + lines[b].expected, scanned + lines[b].scanned;
      boxes := boxes + [BoxOf(lines[b])];
      b := b + 1;
    }
    assert boxes == Boxes(lines);
    r := PartRecon(part, expected, scanned, Judge(expected, scanned) == Fine, boxes);
  }

  method RollUp(lines: seq<Part>) returns (out: seq<PartRecon>)
    ensures out == Rollup(lines)
  {
    var order, grouped := Group(lines);
    ghost var goal := Rollup(lines);
    out := [];
    var k := 0;
    while k < |order|
      invariant 0 <= k <= |order| && |out| == k
      invariant forall i :: 0 <= i < k ==> out[i] == goal[i]
    {
      assert order[k] in order;
      var recon := ReconcilePart(order[k], grouped[order[k]]);
      out := out + [recon];
      k := k + 1;
    }
  }
}
