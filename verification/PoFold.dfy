/** Expected parts of a goods receipt: purchase order lines folded into one row per code, each given the
    session's scanned quantity once, followed by scanned parts that are not on the order. */
module PoFold {
  import opened Wrappers
  import opened Sums
  import opened Text
  import PoMerge

  datatype Part = Part(part: string, box: string, expected: real, scanned: real)

  function PartKey(p: Part): string { PoMerge.Key(p.part) }

  function ExpectedOf(key: string): Part -> real { (p: Part) => if PartKey(p) == key then p.expected else 0.0 }

  function ScannedOf(key: string): Part -> real { (p: Part) => if PartKey(p) == key then p.scanned else 0.0 }

  predicate HasKey(rows: seq<Part>, key: string, n: nat)
    requires n <= |rows|
  {
    n > 0 && (HasKey(rows, key, n - 1) || PartKey(rows[n - 1]) == key)
  }

  lemma {:induction false} KeyAt(rows: seq<Part>, key: string, n: nat)
    requires n <= |rows|
    ensures HasKey(rows, key, n) <==> exists i :: 0 <= i < n && PartKey(rows[i]) == key
  {
    if n > 0 {
      KeyAt(rows, key, n - 1);
    }
  }

  lemma {:induction false} SameKeys(a: seq<Part>, b: seq<Part>, key: string, n: nat)
    requires n <= |a| && n <= |b| && forall i :: 0 <= i < n ==> PartKey(a[i]) == PartKey(b[i])
    ensures HasKey(a, key, n) == HasKey(b, key, n)
  {
    if n > 0 {
      SameKeys(a, b, key, n - 1);
    }
  }

  /** The search for a row to add to compares the row's code without trimming it. */
  function FindUntrimmed(rows: seq<Part>, key: string, n: nat): (r: Option<nat>)
    requires n <= |rows|
    ensures r.Some? ==> r.value < n && Upper(rows[r.value].part) == key
    ensures r.None? ==> forall i :: 0 <= i < n ==> Upper(rows[i].part) != key
  {
    if n == 0 then None
    else
      var r := FindUntrimmed(rows, key, n - 1);
      if r.Some? then r else if Upper(rows[n - 1].part) == key then Some(n - 1) else None
  }

  function AddExpected(rows: seq<Part>, key: string, q: real): (r: seq<Part>)
    ensures |r| == |rows|
  {
    match FindUntrimmed(rows, key, |rows|)
    case Some(i) => rows[i := rows[i].(expected := rows[i].expected + q)]
    case None => rows
  }

  /** One order line: added to the row of its code if that was seen before, and a row of its own if not. */
  function FoldOne(rows: seq<Part>, existing: seq<Part>, ln: Part, known: bool): seq<Part> {
    if PartKey(ln) == "" then rows
    else if known then AddExpected(rows, PartKey(ln), ln.expected)
    else rows + [Part(ln.part, "", ln.expected, Total(existing, ScannedOf(PartKey(ln))))]
  }

  /** The rows for the first `n` order lines. */
  function FoldLines(lines: seq<Part>, existing: seq<Part>, n: nat): seq<Part>
    requires n <= |lines|
  {
    if n == 0 then []
    else FoldOne(FoldLines(lines, existing, n - 1), existing, lines[n - 1], HasKey(lines, PartKey(lines[n - 1]), n - 1))
  }

  /** The rows after the first `n` existing parts as well. */
  function FoldRest(rows: seq<Part>, existing: seq<Part>, n: nat): seq<Part>
    requires n <= |existing|
  {
    if n == 0 then rows
    else
      var r, ln := FoldRest(rows, existing, n - 1), existing[n - 1];
      if PartKey(ln) == "" || HasKey(r, PartKey(ln), |r|) then r else r + [ln]
  }

  function Fold(lines: seq<Part>, existing: seq<Part>): seq<Part> {
    var rows := FoldRest(FoldLines(lines, existing, |lines|), existing, |existing|);
    if |rows| == 0 then existing else rows
  }

  // Distinct codes

  ghost predicate Distinct(rows: seq<Part>) {
    && (forall i :: 0 <= i < |rows| ==> PartKey(rows[i]) != "")
    && (forall i, j :: 0 <= i < j < |rows| ==> PartKey(rows[i]) != PartKey(rows[j]))
  }

  lemma SameParts(rows: seq<Part>, key: string, q: real)
    ensures forall i :: 0 <= i < |rows| ==> AddExpected(rows, key, q)[i].part == rows[i].part
    ensures forall i :: 0 <= i < |rows| ==> PartKey(AddExpected(rows, key, q)[i]) == PartKey(rows[i])
  {
  }

  lemma AddKeepsKeys(rows: seq<Part>, key: string, q: real, other: string)
    ensures HasKey(AddExpected(rows, key, q), other, |rows|) == HasKey(rows, other, |rows|)
    ensures Distinct(rows) ==> Distinct(AddExpected(rows, key, q))
  {
    SameParts(rows, key, q);
    SameKeys(AddExpected(rows, key, q), rows, other, |rows|);
  }

  lemma PushKeys(rows: seq<Part>, row: Part, other: string)
    ensures HasKey(rows + [row], other, |rows| + 1) <==> (HasKey(rows, other, |rows|) || PartKey(row) == other)
    ensures Distinct(rows) && PartKey(row) != "" && !HasKey(rows, PartKey(row), |rows|) ==> Distinct(rows + [row])
  {
    SameKeys(rows + [row], rows, other, |rows|);
    KeyAt(rows, PartKey(row), |rows|);
  }

  lemma FoldOneKeys(rows: seq<Part>, existing: seq<Part>, ln: Part, known: bool, key: string)
    requires Distinct(rows) && key != "" && (PartKey(ln) != "" ==> HasKey(rows, PartKey(ln), |rows|) == known)
    ensures var r := FoldOne(rows, existing, ln, known);
            Distinct(r) && HasKey(r, key, |r|) == (HasKey(rows, key, |rows|) || PartKey(ln) == key)
  {
    if PartKey(ln) != "" {
      if known {
        AddKeepsKeys(rows, PartKey(ln), ln.expected, key);
      } else {
        PushKeys(rows, Part(ln.part, "", ln.expected, Total(existing, ScannedOf(PartKey(ln)))), key);
      }
    }
  }

  lemma {:induction false} FoldLinesKeys(lines: seq<Part>, existing: seq<Part>, n: nat, key: string)
    requires n <= |lines| && key != ""
    ensures var rows := FoldLines(lines, existing, n);
            Distinct(rows) && HasKey(rows, key, |rows|) == HasKey(lines, key, n)
  {
    if n > 0 {
      var own := PartKey(lines[n - 1]);
      FoldLinesKeys(lines, existing, n - 1, key);
      if own != "" {
        FoldLinesKeys(lines, existing, n - 1, own);
      }
      FoldOneKeys(FoldLines(lines, existing, n - 1), existing, lines[n - 1], HasKey(lines, own, n - 1), key);
    }
  }

  lemma {:induction false} FoldRestKeys(rows: seq<Part>, existing: seq<Part>, n: nat)
    requires n <= |existing| && Distinct(rows)
    ensures Distinct(FoldRest(rows, existing, n)) && rows <= FoldRest(rows, existing, n)
  {
    if n > 0 {
      FoldRestKeys(rows, existing, n - 1);
      PushKeys(FoldRest(rows, existing, n - 1), existing[n - 1], "");
    }
  }

  /** No code appears twice in the result, unless there was nothing to fold at all. */
  lemma FoldDistinct(lines: seq<Part>, existing: seq<Part>)
    ensures Distinct(Fold(lines, existing)) || Fold(lines, existing) == existing
  {
    FoldLinesKeys(lines, existing, |lines|, " ");
    FoldRestKeys(FoldLines(lines, existing, |lines|), existing, |existing|);
  }

  // Parts that are not on the order

  /** The first scanned part with a code that no row has. */
  predicate NewAt(rows: seq<Part>, existing: seq<Part>, k: nat)
    requires k < |existing|
  {
    && PartKey(existing[k]) != ""
    && !HasKey(rows, PartKey(existing[k]), |rows|) && !HasKey(existing, PartKey(existing[k]), k)
  }

  /** Where such parts stand. */
  function NewParts(rows: seq<Part>, existing: seq<Part>, n: nat): (r: seq<nat>)
    requires n <= |existing|
    ensures forall m :: 0 <= m < |r| ==> r[m] < n && NewAt(rows, existing, r[m])
    ensures forall m, k :: 0 <= m < k < |r| ==> r[m] < r[k]
    ensures forall k: nat :: k < n && NewAt(rows, existing, k) ==> k in r
  {
    if n == 0 then []
    else if NewAt(rows, existing, n - 1) then NewParts(rows, existing, n - 1) + [n - 1]
    else NewParts(rows, existing, n - 1)
  }

  lemma {:induction false} RestHasKey(rows: seq<Part>, existing: seq<Part>, n: nat, key: string)
    requires n <= |existing| && key != ""
    ensures var r := FoldRest(rows, existing, n);
            HasKey(r, key, |r|) <==> (HasKey(rows, key, |rows|) || HasKey(existing, key, n))
  {
    if n > 0 {
      RestHasKey(rows, existing, n - 1, key);
      PushKeys(FoldRest(rows, existing, n - 1), existing[n - 1], key);
    }
  }

  lemma RestStep(rows: seq<Part>, existing: seq<Part>, n: nat)
    requires 0 < n <= |existing|
    ensures FoldRest(rows, existing, n) == if NewAt(rows, existing, n - 1)
            then FoldRest(rows, existing, n - 1) + [existing[n - 1]] else FoldRest(rows, existing, n - 1)
  {
    if PartKey(existing[n - 1]) != "" {
      RestHasKey(rows, existing, n - 1, PartKey(existing[n - 1]));
    }
  }

  /** After the rows of the order come the scanned parts that are not on it, each code once, where it was first
      scanned, in the order in which they were. */
  lemma {:induction false} RestIs(rows: seq<Part>, existing: seq<Part>, n: nat)
    requires n <= |existing|
    ensures var r, at := FoldRest(rows, existing, n), NewParts(rows, existing, n);
            && |r| == |rows| + |at| && rows <= r
            && forall m :: 0 <= m < |at| ==> r[|rows| + m] == existing[at[m]]
  {
    if n > 0 {
      RestIs(rows, existing, n - 1);
      RestStep(rows, existing, n);
    }
  }

  /** A receipt's rows: those of the order, and then the scanned parts that are not on it; with neither, the scanned
      parts as they were. */
  lemma FoldIs(lines: seq<Part>, existing: seq<Part>)
    ensures var ordered := FoldLines(lines, existing, |lines|);
            var at := NewParts(ordered, existing, |existing|);
            var r := Fold(lines, existing);
            if |ordered| + |at| == 0 then r == existing
            else
              && |r| == |ordered| + |at| && ordered <= r
              && forall m :: 0 <= m < |at| ==> r[|ordered| + m] == existing[at[m]]
  {
    RestIs(FoldLines(lines, existing, |lines|), existing, |existing|);
  }

  // Expected and scanned quantities

  /** The first order line with a code. */
  function First(lines: seq<Part>, key: string, n: nat): (r: Option<nat>)
    requires n <= |lines|
    ensures r.Some? <==> HasKey(lines, key, n)
    ensures r.Some? ==> r.value < n && PartKey(lines[r.value]) == key && !HasKey(lines, key, r.value)
  {
    if n == 0 then None
    else
      var r := First(lines, key, n - 1);
      if r.Some? then r else if PartKey(lines[n - 1]) == key then Some(n - 1) else None
  }

  /** A row carries, under the code as the order first wrote it, the whole expected quantity if that code
      was trimmed, and only the first line's if it was not; and the scanned quantity of the whole session. */
  ghost predicate RowFolds(lines: seq<Part>, existing: seq<Part>, n: nat, row: Part)
    requires n <= |lines|
  {
    var key := PartKey(row);
    var f := First(lines, key, n);
    && f.Some? && row.part == lines[f.value].part
    && row.scanned == Total(existing, ScannedOf(key))
    && row.expected == if Upper(row.part) == key then Sum(lines, ExpectedOf(key), n) else lines[f.value].expected
  }

  lemma {:induction false} NotYet(lines: seq<Part>, key: string, n: nat)
    requires n <= |lines| && !HasKey(lines, key, n)
    ensures Sum(lines, ExpectedOf(key), n) == 0.0
  {
    KeyAt(lines, key, n);
    TotalZero(lines, ExpectedOf(key), n);
  }

  /** A code whose capitals are some code's key is itself trimmed, so they are its own key. */
  lemma UpperIsKey(part: string, key: string, code: string)
    requires Upper(part) == key && PoMerge.Key(code) == key
    ensures PoMerge.Key(part) == key
  {
    TrimUpper(part);
    TrimUpper(code);
    TrimIsTrimmed(Upper(code));
    TrimIsTrimmed(key);
  }

  lemma OnlyOneFound(rows: seq<Part>, i: nat, key: string)
    requires Distinct(rows) && i < |rows| && PartKey(rows[i]) == key && Upper(rows[i].part) == key
    ensures FindUntrimmed(rows, key, |rows|) == Some(i)
  {
    var j := FindUntrimmed(rows, key, |rows|).value;
    UpperIsKey(rows[j].part, key, rows[i].part);
  }

  lemma FoundIsOther(rows: seq<Part>, i: nat, key: string)
    requires Distinct(rows) && i < |rows| && PartKey(rows[i]) != key && exists code: string :: PoMerge.Key(code) == key
    ensures FindUntrimmed(rows, key, |rows|) != Some(i)
  {
    var code: string :| PoMerge.Key(code) == key;
    if Upper(rows[i].part) == key {
      UpperIsKey(rows[i].part, key, code);
    }
  }

  /** How the row of a key grows when a line whose key it may or may not be is added to it. */
  lemma AddToOwnRow(rows: seq<Part>, i: nat, key: string, q: real)
    requires Distinct(rows) && i < |rows| && key != "" && exists code: string :: PoMerge.Key(code) == key
    ensures AddExpected(rows, key, q)[i]
              == if PartKey(rows[i]) == key && Upper(rows[i].part) == key then
                  rows[i].(expected := rows[i].expected + q) else rows[i]
  {
    if PartKey(rows[i]) == key {
      if Upper(rows[i].part) == key {
        OnlyOneFound(rows, i, key);
      }
    } else {
      FoundIsOther(rows, i, key);
    }
  }

  lemma RowGrows(lines: seq<Part>, existing: seq<Part>, n: nat, row: Part, next: Part)
    requires 0 < n <= |lines| && PartKey(row) != "" && RowFolds(lines, existing, n - 1, row)
    requires var ln := lines[n - 1];
             next == if PartKey(ln) == PartKey(row) && Upper(row.part) == PartKey(row) then
                 row.(expected := row.expected + ln.expected) else row
    ensures RowFolds(lines, existing, n, next)
  {
    assert First(lines, PartKey(row), n) == First(lines, PartKey(row), n - 1);
  }

  lemma NewRow(rows: seq<Part>, existing: seq<Part>, ln: Part, known: bool)
    requires |FoldOne(rows, existing, ln, known)| > |rows|
    ensures PartKey(ln) != "" && !known && |FoldOne(rows, existing, ln, known)| == |rows| + 1
    ensures FoldOne(rows, existing, ln, known)[|rows|]
            == Part(ln.part, "", ln.expected, Total(existing, ScannedOf(PartKey(ln))))
  {
  }

  lemma NewRowFolds(lines: seq<Part>, existing: seq<Part>, n: nat)
    requires 0 < n <= |lines| && !HasKey(lines, PartKey(lines[n - 1]), n - 1)
    ensures var ln := lines[n - 1];
            RowFolds(lines, existing, n, Part(ln.part, "", ln.expected, Total(existing, ScannedOf(PartKey(ln)))))
  {
    NotYet(lines, PartKey(lines[n - 1]), n - 1);
  }

  lemma RowStep(lines: seq<Part>, existing: seq<Part>, n: nat, i: nat)
    requires 0 < n <= |lines| && i < |FoldLines(lines, existing, n - 1)| && Distinct(FoldLines(lines, existing, n - 1))
    ensures i < |FoldLines(lines, existing, n)|
    ensures var row, ln := FoldLines(lines, existing, n - 1)[i], lines[n - 1];
            FoldLines(lines, existing, n)[i]
              == if PartKey(ln) == PartKey(row) && Upper(row.part) == PartKey(row) then
                  row.(expected := row.expected + ln.expected) else row
  {
    var before, ln := FoldLines(lines, existing, n - 1), lines[n - 1];
    if PartKey(ln) != "" {
      FoldLinesKeys(lines, existing, n - 1, PartKey(ln));
      KeyAt(before, PartKey(ln), |before|);
      AddToOwnRow(before, i, PartKey(ln), ln.expected);
    }
  }

  lemma OldRowFolds(lines: seq<Part>, existing: seq<Part>, n: nat, i: nat)
    requires 0 < n <= |lines| && i < |FoldLines(lines, existing, n - 1)| && Distinct(FoldLines(lines, existing, n - 1))
    requires RowFolds(lines, existing, n - 1, FoldLines(lines, existing, n - 1)[i])
    ensures i < |FoldLines(lines, existing, n)| && RowFolds(lines, existing, n, FoldLines(lines, existing, n)[i])
  {
    RowStep(lines, existing, n, i);
    RowGrows(lines, existing, n, FoldLines(lines, existing, n - 1)[i], FoldLines(lines, existing, n)[i]);
  }

  lemma {:induction false} RowsFold(lines: seq<Part>, existing: seq<Part>, n: nat, i: nat)
    requires n <= |lines| && i < |FoldLines(lines, existing, n)|
    ensures RowFolds(lines, existing, n, FoldLines(lines, existing, n)[i])
  {
    var before, ln := FoldLines(lines, existing, n - 1), lines[n - 1];
    FoldLinesKeys(lines, existing, n - 1, " ");
    if i < |before| {
      RowsFold(lines, existing, n - 1, i);
      OldRowFolds(lines, existing, n, i);
    } else {
      NewRow(before, existing, ln, HasKey(lines, PartKey(ln), n - 1));
      NewRowFolds(lines, existing, n);
    }
  }

  /** The rows of the order stand in the order in which their codes are first asked for. */
  lemma {:induction false} RowsInOrder(lines: seq<Part>, existing: seq<Part>, n: nat, i: nat, j: nat)
    requires n <= |lines| && i < j < |FoldLines(lines, existing, n)|
    ensures var a, b := PartKey(FoldLines(lines, existing, n)[i]), PartKey(FoldLines(lines, existing, n)[j]);
            HasKey(lines, a, n) && HasKey(lines, b, n) && First(lines, a, n).value < First(lines, b, n).value
  {
    var before := FoldLines(lines, existing, n - 1);
    FoldLinesKeys(lines, existing, n - 1, " ");
    RowStep(lines, existing, n, i);
    if j < |before| {
      RowsInOrder(lines, existing, n - 1, i, j);
      RowStep(lines, existing, n, j);
    } else {
      RowsFold(lines, existing, n - 1, i);
      NewRow(before, existing, lines[n - 1], HasKey(lines, PartKey(lines[n - 1]), n - 1));
    }
  }

  /** The row a code has in the result. */
  lemma FoldHasRow(lines: seq<Part>, existing: seq<Part>, key: string) returns (i: nat)
    requires key != "" && HasKey(lines, key, |lines|)
    ensures i < |Fold(lines, existing)| && PartKey(Fold(lines, existing)[i]) == key
    ensures RowFolds(lines, existing, |lines|, Fold(lines, existing)[i])
    ensures Distinct(Fold(lines, existing))
  {
    var rows := FoldLines(lines, existing, |lines|);
    FoldLinesKeys(lines, existing, |lines|, key);
    FoldRestKeys(rows, existing, |existing|);
    KeyAt(rows, key, |rows|);
    i :| 0 <= i < |rows| && PartKey(rows[i]) == key;
    RowsFold(lines, existing, |lines|, i);
  }

  lemma {:induction false} OnlyRow(rows: seq<Part>, i: nat, n: nat)
    requires Distinct(rows) && i < |rows| && n <= |rows|
    ensures Sum(rows, ExpectedOf(PartKey(rows[i])), n) == if i < n then rows[i].expected else 0.0
    ensures Sum(rows, ScannedOf(PartKey(rows[i])), n) == if i < n then rows[i].scanned else 0.0
  {
    if n > 0 {
      OnlyRow(rows, i, n - 1);
    }
  }

  /** Each ordered code gets the session's scanned quantity once. Its expected quantity is what the order's
      lines ask for together if and only if the code was written without blanks around it the first time,
      or the other lines with it add nothing. */
  lemma FoldExpectedIff(lines: seq<Part>, existing: seq<Part>, key: string)
    requires key != "" && HasKey(lines, key, |lines|)
    ensures Total(Fold(lines, existing), ScannedOf(key)) == Total(existing, ScannedOf(key))
    ensures var first := lines[First(lines, key, |lines|).value];
            (Total(Fold(lines, existing), ExpectedOf(key)) == Total(lines, ExpectedOf(key)))
              <==> (Upper(first.part) == key || first.expected == Total(lines, ExpectedOf(key)))
  {
    var i := FoldHasRow(lines, existing, key);
    OnlyRow(Fold(lines, existing), i, |Fold(lines, existing)|);
  }

  const WITH_BLANK := Part(" BOLT", "", 2.0, 0.0)
  const WITHOUT_BLANK := Part("BOLT", "", 3.0, 0.0)

  lemma BothAreBolts()
    ensures PartKey(WITH_BLANK) == "BOLT" && PartKey(WITHOUT_BLANK) == "BOLT" && Upper(WITH_BLANK.part) != "BOLT"
  {
    assert " BOLT"[1..] == "BOLT";
    assert TrimLeft(" BOLT") == TrimLeft("BOLT") == "BOLT";
    assert Trim(" BOLT") == "BOLT" && Trim("BOLT") == "BOLT";
    assert Upper("BOLT") == "BOLT";
    assert |Upper(" BOLT")| == 5;
  }

  /** Two bolts ordered under a code with a blank before it and three under the code as it is: two are expected. */
  lemma BlankLosesQuantity()
    ensures var lines := [WITH_BLANK, WITHOUT_BLANK];
            Total(lines, ExpectedOf("BOLT")) == 5.0 && Total(Fold(lines, []), ExpectedOf("BOLT")) != 5.0
  {
    var lines := [WITH_BLANK, WITHOUT_BLANK];
    BothAreBolts();
    TotalOfTwo(lines, ExpectedOf("BOLT"));
    assert First(lines, "BOLT", 0).None? && First(lines, "BOLT", 1) == Some(0);
    assert First(lines, "BOLT", 2) == Some(0);
    FoldExpectedIff(lines, [], "BOLT");
  }

  // Folding raw lines against folding merged ones

  function AsParts(items: seq<PoMerge.Item>): (r: seq<Part>)
    ensures |r| == |items|
  {
    seq(|items|, (i: int) requires 0 <= i < |items| => Part(items[i].code, "", items[i].quantity, 0.0))
  }

  lemma PartsTotal(items: seq<PoMerge.Item>, key: string)
    requires key != ""
    ensures Total(AsParts(items), ExpectedOf(key)) == Total(items, PoMerge.QuantityOf(key))
  {
    TotalSame(AsParts(items), ExpectedOf(key), items, PoMerge.QuantityOf(key));
  }

  lemma MergedHasKey(items: seq<PoMerge.Item>, key: string)
    requires key != "" && HasKey(AsParts(items), key, |items|)
    ensures HasKey(AsParts(PoMerge.Merged(items)), key, |PoMerge.Merged(items)|)
    ensures forall i :: 0 <= i < |PoMerge.Merged(items)| ==>
            Upper(AsParts(PoMerge.Merged(items))[i].part) == PartKey(AsParts(PoMerge.Merged(items))[i])
  {
    var rows := PoMerge.Merged(items);
    KeyAt(AsParts(items), key, |items|);
    KeyAt(AsParts(rows), key, |rows|);
    var k :| 0 <= k < |items| && PartKey(AsParts(items)[k]) == key;
    PoMerge.MergeCovers(items, |items|, k);
    PoMerge.MergeClean(items, |items|);
    forall i | 0 <= i < |rows| ensures Upper(AsParts(rows)[i].part) == PartKey(AsParts(rows)[i]) {
      assert PoMerge.RowClean(rows[i]);
    }
    var i :| 0 <= i < |rows| && PoMerge.RowKey(rows[i]) == key;
    assert PartKey(AsParts(rows)[i]) == key;
  }

  /** When every order line's code is written without blanks around it, it makes no difference to any code
      whether repeated lines were merged before they are folded. */
  lemma FoldOfMerged(items: seq<PoMerge.Item>, existing: seq<Part>, key: string)
    requires key != "" && HasKey(AsParts(items), key, |items|)
    requires forall k :: 0 <= k < |items| ==> Trim(items[k].code) == items[k].code
    ensures Total(Fold(AsParts(items), existing), ExpectedOf(key))
            == Total(Fold(AsParts(PoMerge.Merged(items)), existing), ExpectedOf(key))
    ensures Total(Fold(AsParts(items), existing), ScannedOf(key))
            == Total(Fold(AsParts(PoMerge.Merged(items)), existing), ScannedOf(key))
  {
    var rows := PoMerge.Merged(items);
    MergedHasKey(items, key);
    FoldExpectedIff(AsParts(items), existing, key);
    FoldExpectedIff(AsParts(rows), existing, key);
    PartsTotal(items, key);
    PartsTotal(rows, key);
    PoMerge.MergeTotal(items, |items|, key);
  }

  // The loops as they run

  /** Scanned quantity by key. */
  method SumScanned(existing: seq<Part>) returns (scanned: map<string, real>)
    ensures forall key :: (if key in scanned then scanned[key] else 0.0) == Total(existing, ScannedOf(key))
  {
    scanned := map[];
    var k := 0;
    while k < |existing|
      invariant 0 <= k <= |existing|
      invariant forall key :: (if key in scanned then scanned[key] else 0.0) == Sum(existing, ScannedOf(key), k)
    {
      var key := PartKey(existing[k]);
      scanned := scanned[key := (if key in scanned then scanned[key] else 0.0) + existing[k].scanned];
      k := k + 1;
    }
  }

  lemma {:induction false} FoundFirst(rows: seq<Part>, key: string, i: nat, n: nat)
    requires i < n <= |rows| && FindUntrimmed(rows, key, i).None? && Upper(rows[i].part) == key
    ensures FindUntrimmed(rows, key, n) == Some(i)
  {
    if n > i + 1 {
      FoundFirst(rows, key, i, n - 1);
    }
  }

  /** Look for the row to add to and stop at the first one. */
  method AddToRow(rows: seq<Part>, key: string, q: real) returns (r: seq<Part>)
    ensures r == AddExpected(rows, key, q)
  {
    r := rows;
    var i := 0;
    while i < |rows|
      invariant 0 <= i <= |rows| && r == rows && FindUntrimmed(rows, key, i).None?
    {
      if Upper(rows[i].part) == key {
        r := rows[i := rows[i].(expected := rows[i].expected + q)];
        FoundFirst(rows, key, i, |rows|);
        return;
      }
      i := i + 1;
    }
  }

  /** One turn of the loop over order lines. */
  method PlaceLine(rows: seq<Part>, existing: seq<Part>, ln: Part, known: bool, scanned: map<string, real>)
    returns (r: seq<Part>)
    requires forall key :: (if key in scanned then scanned[key] else 0.0) == Total(existing, ScannedOf(key))
    ensures r == FoldOne(rows, existing, ln, known)
  {
    r := rows;
    var key := PartKey(ln);
    if key == "" { return; }
    if known {
      r := AddToRow(rows, key, ln.expected);
    } else {
      var total := if key in scanned then scanned[key] else 0.0;
      r := rows + [Part(ln.part, "", ln.expected, total)];
    }
  }

  method FoldOrderLines(lines: seq<Part>, existing: seq<Part>, scanned: map<string, real>)
    returns (rows: seq<Part>, seen: set<string>)
    requires forall key :: (if key in scanned then scanned[key] else 0.0) == Total(existing, ScannedOf(key))
    ensures rows == FoldLines(lines, existing, |lines|)
    ensures forall key :: key in seen <==> key != "" && HasKey(lines, key, |lines|)
  {
    rows, seen := [], {};
    var k := 0;
    while k < |lines|
      invariant 0 <= k <= |lines| && rows == FoldLines(lines, existing, k)
      invariant forall key :: key in seen <==> key != "" && HasKey(lines, key, k)
    {
      var key := PartKey(lines[k]);
      var known := key in seen;
      rows := PlaceLine(rows, existing, lines[k], known, scanned);
      assert key != "" ==> known == HasKey(lines, key, k);
      assert rows == FoldLines(lines, existing, k + 1);
      if key != "" { seen := seen + {key}; }
      k := k + 1;
    }
  }

  method AppendUnordered(rows: seq<Part>, existing: seq<Part>, seen: set<string>) returns (r: seq<Part>)
    requires forall key :: key in seen <==> key != "" && HasKey(rows, key, |rows|)
    ensures r == FoldRest(rows, existing, |existing|)
  {
    r := rows;
    var known, k := seen, 0;
    while k < |existing|
      invariant 0 <= k <= |existing| && r == FoldRest(rows, existing, k)
      invariant forall key :: key in known <==> key != "" && HasKey(r, key, |r|)
    {
      var key := PartKey(existing[k]);
      if key != "" && key !in known {
        forall other ensures HasKey(r + [existing[k]], other, |r| + 1) <==> (HasKey(r, other, |r|) || key == other) {
          PushKeys(r, existing[k], other);
        }
        known := known + {key};
        r := r + [existing[k]];
      }
      k := k + 1;
    }
  }

  method FoldExpectedParts(lines: seq<Part>, existing: seq<Part>) returns (rows: seq<Part>)
    ensures rows == Fold(lines, existing)
  {
    var scanned := SumScanned(existing);
    var seen: set<string>;
    rows, seen := FoldOrderLines(lines, existing, scanned);
    forall key | key != "" ensures HasKey(rows, key, |rows|) == HasKey(lines, key, |lines|) {
      FoldLinesKeys(lines, existing, |lines|, key);
    }
    rows := AppendUnordered(rows, existing, seen);
    if |rows| == 0 { rows := existing; }
  }
}
