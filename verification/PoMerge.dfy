/** Purchase order lines: repeated codes are merged into one line when an order is created, and folded into
    one expected row per code when goods are received against it. */
module PoMerge {
  import opened Wrappers
  import opened Sums
  import opened Text

  datatype Item = Item(code: string, name: string, quantity: real, rate: real, amount: real, warehouse: string,
                       uom: string, batch: string)

  /** What makes two codes the same. */
  function Key(code: string): string { Upper(Trim(code)) }

  // Merging

  /** A written line counts under its code as it stands. */
  function RowKey(row: Item): string { Upper(row.code) }

  function FindKey(rows: seq<Item>, key: string, n: nat): (r: Option<nat>)
    requires n <= |rows|
    ensures r.Some? ==> r.value < n && RowKey(rows[r.value]) == key
    ensures r.None? ==> forall i :: 0 <= i < n ==> RowKey(rows[i]) != key
  {
    if n == 0 then None
    else
      var r := FindKey(rows, key, n - 1);
      if r.Some? then r else if RowKey(rows[n - 1]) == key then Some(n - 1) else None
  }

  /** A line as it is first written: code trimmed, a missing amount worked out. */
  function Fresh(it: Item): Item {
    it.(code := Trim(it.code), amount := if it.amount == 0.0 then it.quantity * it.rate else it.amount)
  }

  function Prefer(a: string, b: string): string { if Trim(a) == "" then b else a }

  function PreferRate(a: real, b: real): real { if a == 0.0 then b else a }

  /** A line joined by another with the same code. */
  function Joined(row: Item, it: Item): Item {
    var quantity, rate := row.quantity + it.quantity, PreferRate(row.rate, it.rate);
    Item(row.code, Prefer(row.name, it.name), quantity, rate, quantity * rate,
         Prefer(row.warehouse, it.warehouse), Prefer(row.uom, it.uom), Prefer(row.batch, it.batch))
  }

  function MergeOne(rows: seq<Item>, it: Item): seq<Item> {
    if Trim(it.code) == "" then rows
    else match FindKey(rows, Key(it.code), |rows|)
      case Some(i) => rows[i := Joined(rows[i], it)]
      case None => rows + [Fresh(it)]
  }

  function Merge(items: seq<Item>, n: nat): seq<Item>
    requires n <= |items|
  {
    if n == 0 then [] else MergeOne(Merge(items, n - 1), items[n - 1])
  }

  function Merged(items: seq<Item>): seq<Item> { Merge(items, |items|) }

  function QuantityOf(key: string): Item -> real {
    (it: Item) => if Trim(it.code) != "" && Key(it.code) == key then it.quantity else 0.0
  }

  ghost predicate RowClean(row: Item) {
    row.code != "" && Trim(row.code) == row.code && (row.amount == 0.0 ==> row.quantity * row.rate == 0.0)
  }

  ghost predicate DistinctCodes(rows: seq<Item>) {
    forall i, j :: 0 <= i < j < |rows| ==> RowKey(rows[i]) != RowKey(rows[j])
  }

  /** Codes trimmed, present, and no two the same. */
  ghost predicate Clean(rows: seq<Item>) {
    (forall i :: 0 <= i < |rows| ==> RowClean(rows[i])) && DistinctCodes(rows)
  }

  lemma FreshIsClean(it: Item)
    requires Trim(it.code) != ""
    ensures RowClean(Fresh(it)) && RowKey(Fresh(it)) == Key(it.code)
  {
    TrimIsTrimmed(it.code);
    TrimIsTrimmed(Trim(it.code));
  }

  lemma RewriteKeepsClean(rows: seq<Item>, i: nat, row: Item)
    requires Clean(rows) && i < |rows| && RowClean(row) && row.code == rows[i].code
    ensures Clean(rows[i := row])
  {
    var r := rows[i := row];
    forall j, k | 0 <= j < k < |r| ensures RowKey(r[j]) != RowKey(r[k]) {
      assert RowKey(r[j]) == RowKey(rows[j]) && RowKey(r[k]) == RowKey(rows[k]);
    }
  }

  lemma PushKeepsClean(rows: seq<Item>, row: Item)
    requires Clean(rows) && RowClean(row) && forall i :: 0 <= i < |rows| ==> RowKey(rows[i]) != RowKey(row)
    ensures Clean(rows + [row])
  {
  }

  lemma MergeOneClean(rows: seq<Item>, it: Item)
    requires Clean(rows)
    ensures Clean(MergeOne(rows, it))
  {
    if Trim(it.code) != "" {
      match FindKey(rows, Key(it.code), |rows|)
      case Some(i) =>
        assert RowClean(rows[i]);
        RewriteKeepsClean(rows, i, Joined(rows[i], it));
      case None =>
        FreshIsClean(it);
        PushKeepsClean(rows, Fresh(it));
    }
  }

  lemma {:induction false} MergeClean(items: seq<Item>, n: nat)
    requires n <= |items|
    ensures Clean(Merge(items, n))
  {
    if n > 0 {
      MergeClean(items, n - 1);
      MergeOneClean(Merge(items, n - 1), items[n - 1]);
    }
  }

  lemma MergeOneTotal(rows: seq<Item>, it: Item, key: string)
    requires Clean(rows)
    ensures Total(MergeOne(rows, it), QuantityOf(key)) == Total(rows, QuantityOf(key)) + QuantityOf(key)(it)
  {
    if Trim(it.code) != "" {
      match FindKey(rows, Key(it.code), |rows|)
      case Some(i) =>
        assert RowClean(rows[i]);
        TotalUpdate(rows, i, Joined(rows[i], it), QuantityOf(key));
      case None =>
        FreshIsClean(it);
        TotalPush(rows, Fresh(it), QuantityOf(key));
    }
  }

  lemma {:induction false} MergeTotal(items: seq<Item>, n: nat, key: string)
    requires n <= |items|
    ensures Total(Merge(items, n), QuantityOf(key)) == Sum(items, QuantityOf(key), n)
  {
    if n > 0 {
      MergeTotal(items, n - 1, key);
      MergeClean(items, n - 1);
      MergeOneTotal(Merge(items, n - 1), items[n - 1], key);
    }
  }

  lemma {:induction false} OnlyRow(rows: seq<Item>, i: nat, n: nat)
    requires Clean(rows) && i < |rows| && n <= |rows|
    ensures Sum(rows, QuantityOf(RowKey(rows[i])), n) == if i < n then rows[i].quantity else 0.0
  {
    if n > 0 {
      assert RowClean(rows[n - 1]);
      OnlyRow(rows, i, n - 1);
    }
  }

  /** The merged lines have distinct, trimmed, non-blank codes, and each carries the whole quantity the
      order asks for under its code, however often and in whatever case it was written. */
  lemma MergeConserves(items: seq<Item>, i: nat)
    requires i < |Merged(items)|
    ensures Clean(Merged(items))
    ensures Merged(items)[i].quantity == Total(items, QuantityOf(RowKey(Merged(items)[i])))
  {
    MergeClean(items, |items|);
    MergeTotal(items, |items|, RowKey(Merged(items)[i]));
    OnlyRow(Merged(items), i, |Merged(items)|);
  }

  /** Every code asked for is there. */
  lemma {:induction false} MergeCovers(items: seq<Item>, n: nat, k: nat)
    requires k < n <= |items| && Trim(items[k].code) != ""
    ensures exists i :: 0 <= i < |Merge(items, n)| && RowKey(Merge(items, n)[i]) == Key(items[k].code)
  {
    var rows, it := Merge(items, n - 1), items[n - 1];
    if k == n - 1 {
      if FindKey(rows, Key(it.code), |rows|).None? {
        assert RowKey(Merge(items, n)[|rows|]) == Key(it.code);
      } else {
        assert RowKey(Merge(items, n)[FindKey(rows, Key(it.code), |rows|).value]) == Key(it.code);
      }
    } else {
      MergeCovers(items, n - 1, k);
      var i :| 0 <= i < |rows| && RowKey(rows[i]) == Key(items[k].code);
      assert RowKey(Merge(items, n)[i]) == RowKey(rows[i]);
    }
  }

  /** The distinct keys in the order they are first asked for. */
  function KeysSeen(items: seq<Item>, n: nat): (r: seq<string>)
    requires n <= |items|
    ensures forall i, j :: 0 <= i < j < |r| ==> r[i] != r[j]
  {
    if n == 0 then []
    else
      var r, key := KeysSeen(items, n - 1), Key(items[n - 1].code);
      if Trim(items[n - 1].code) == "" || key in r then r else r + [key]
  }

  lemma OrderStep(rows: seq<Item>, it: Item, keys: seq<string>)
    requires |rows| == |keys| && forall i :: 0 <= i < |rows| ==> RowKey(rows[i]) == keys[i]
    ensures var r := MergeOne(rows, it);
            var seen := if Trim(it.code) == "" || Key(it.code) in keys then keys else keys + [Key(it.code)];
            |r| == |seen| && forall i :: 0 <= i < |r| ==> RowKey(r[i]) == seen[i]
  {
    if Trim(it.code) != "" {
      match FindKey(rows, Key(it.code), |rows|)
      case Some(i) => assert keys[i] == Key(it.code) && Joined(rows[i], it).code == rows[i].code;
      case None => FreshIsClean(it);
    }
  }

  /** The merged lines stand in the order in which their codes were first asked for. */
  lemma {:induction false} MergeKeepsOrder(items: seq<Item>, n: nat)
    requires n <= |items|
    ensures |Merge(items, n)| == |KeysSeen(items, n)|
    ensures forall i :: 0 <= i < |Merge(items, n)| ==> RowKey(Merge(items, n)[i]) == KeysSeen(items, n)[i]
  {
    if n > 0 {
      MergeKeepsOrder(items, n - 1);
      OrderStep(Merge(items, n - 1), items[n - 1], KeysSeen(items, n - 1));
    }
  }

  /** A clean line whose code is not there yet is written as it is. */
  lemma CleanIsAppended(rows: seq<Item>, row: Item)
    requires RowClean(row) && forall i :: 0 <= i < |rows| ==> RowKey(rows[i]) != RowKey(row)
    ensures MergeOne(rows, row) == rows + [row]
  {
  }

  lemma CleanBefore(rows: seq<Item>, n: nat)
    requires Clean(rows) && n < |rows|
    ensures RowClean(rows[n]) && forall i :: 0 <= i < |rows[..n]| ==> RowKey(rows[..n][i]) != RowKey(rows[n])
  {
    forall i | 0 <= i < n ensures RowKey(rows[..n][i]) != RowKey(rows[n]) {
      assert rows[..n][i] == rows[i];
    }
  }

  /** If the first `k` lines merge to themselves, so does one more. */
  ghost predicate GoesOn(rows: seq<Item>, k: nat)
    requires k < |rows|
  {
    Merge(rows, k) == rows[..k] ==> Merge(rows, k + 1) == rows[..k + 1]
  }

  lemma CleanGoesOn(rows: seq<Item>, k: nat)
    requires Clean(rows) && k < |rows|
    ensures GoesOn(rows, k)
  {
    CleanBefore(rows, k);
    CleanIsAppended(rows[..k], rows[k]);
    assert rows[..k + 1] == rows[..k] + [rows[k]];
  }

  lemma {:induction false} MergesToItself(rows: seq<Item>, n: nat)
    requires n <= |rows| && forall k: nat :: k < |rows| ==> GoesOn(rows, k)
    ensures Merge(rows, n) == rows[..n]
  {
    if n > 0 {
      MergesToItself(rows, n - 1);
      assert GoesOn(rows, n - 1);
    }
  }

  /** Merging a second time changes nothing. */
  lemma MergeIdempotent(items: seq<Item>)
    ensures Merged(Merged(items)) == Merged(items)
  {
    var rows := Merged(items);
    MergeClean(items, |items|);
    forall k: nat | k < |rows| ensures GoesOn(rows, k) {
      CleanGoesOn(rows, k);
    }
    MergesToItself(rows, |rows|);
    assert rows[..|rows|] == rows;
  }

  /** The first rate other than zero given for a code. */
  function FirstRate(items: seq<Item>, key: string, n: nat): real
    requires n <= |items|
  {
    if n == 0 then 0.0
    else if Trim(items[n - 1].code) != "" && Key(items[n - 1].code) == key then
        PreferRate(FirstRate(items, key, n - 1), items[n - 1].rate)
    else FirstRate(items, key, n - 1)
  }

  /** What one more line does to the row at `i`. */
  lemma RowStep(items: seq<Item>, n: nat, i: nat)
    requires 0 < n <= |items| && i < |Merge(items, n)|
    ensures var rows, it, row := Merge(items, n - 1), items[n - 1], Merge(items, n)[i];
            && i <= |rows|
            && (i < |rows| ==> row == if Trim(it.code) != "" && Key(it.code) == RowKey(rows[i]) then
                Joined(rows[i], it) else rows[i])
            && (i == |rows| ==> Trim(it.code) != "" && FindKey(rows, Key(it.code), |rows|).None?
                                && row == Fresh(it) && RowKey(row) == Key(it.code))
  {
    var rows, it := Merge(items, n - 1), items[n - 1];
    MergeClean(items, n - 1);
    if Trim(it.code) != "" {
      FreshIsClean(it);
    }
  }

  lemma KeysStay(rows: seq<Item>, it: Item, key: string)
    ensures FindKey(rows, key, |rows|).Some? ==> FindKey(MergeOne(rows, it), key, |MergeOne(rows, it)|).Some?
    ensures Trim(it.code) != "" && Key(it.code) == key ==> FindKey(MergeOne(rows, it), key, |MergeOne(rows, it)|).Some?
  {
    var r := MergeOne(rows, it);
    if FindKey(rows, key, |rows|).Some? {
      assert RowKey(r[FindKey(rows, key, |rows|).value]) == key;
    } else if Trim(it.code) != "" && Key(it.code) == key {
      assert RowKey(r[|rows|]) == key;
    }
  }

  lemma {:induction false} NoRateYet(items: seq<Item>, key: string, n: nat)
    requires n <= |items| && FindKey(Merge(items, n), key, |Merge(items, n)|).None?
    ensures FirstRate(items, key, n) == 0.0
  {
    if n > 0 {
      KeysStay(Merge(items, n - 1), items[n - 1], key);
      NoRateYet(items, key, n - 1);
    }
  }

  predicate AsksFor(it: Item, key: string) { Trim(it.code) != "" && Key(it.code) == key }

  /** The rate is the first one other than zero among the first `n` lines that ask for the code, or there is none. */
  ghost predicate FirstRateGiven(items: seq<Item>, n: nat, key: string, rate: real)
    requires n <= |items|
  {
    if rate == 0.0 then forall k :: 0 <= k < n && AsksFor(items[k], key) ==> items[k].rate == 0.0
    else
      exists k :: 0 <= k < n && AsksFor(items[k], key) && items[k].rate == rate
               && forall j :: 0 <= j < k && AsksFor(items[j], key) ==> items[j].rate == 0.0
  }

  lemma {:induction false} FirstRateIs(items: seq<Item>, key: string, n: nat)
    requires n <= |items|
    ensures FirstRateGiven(items, n, key, FirstRate(items, key, n))
  {
    if n > 0 {
      FirstRateIs(items, key, n - 1);
      if FirstRate(items, key, n - 1) != 0.0 {
        var k :| 0 <= k < n - 1 && AsksFor(items[k], key) && items[k].rate == FirstRate(items, key, n - 1)
                 && forall j :: 0 <= j < k && AsksFor(items[j], key) ==> items[j].rate == 0.0;
        assert FirstRate(items, key, n) == items[k].rate;
      } else if FirstRate(items, key, n) != 0.0 {
        assert AsksFor(items[n - 1], key) && items[n - 1].rate == FirstRate(items, key, n);
      }
    }
  }

  lemma {:induction false} PricedAtFirst(items: seq<Item>, n: nat, i: nat)
    requires n <= |items| && i < |Merge(items, n)|
    ensures Merge(items, n)[i].rate == FirstRate(items, RowKey(Merge(items, n)[i]), n)
  {
    RowStep(items, n, i);
    if i < |Merge(items, n - 1)| {
      PricedAtFirst(items, n - 1, i);
    } else {
      NoRateYet(items, Key(items[n - 1].code), n - 1);
    }
  }

  /** A merged line is priced at the first rate other than zero given for its code. */
  lemma MergePrices(items: seq<Item>, i: nat)
    requires i < |Merged(items)|
    ensures FirstRateGiven(items, |items|, RowKey(Merged(items)[i]), Merged(items)[i].rate)
  {
    PricedAtFirst(items, |items|, i);
    FirstRateIs(items, RowKey(Merged(items)[i]), |items|);
  }

  /** How many of the first `n` lines ask for a code. */
  function Asked(items: seq<Item>, key: string, n: nat): nat
    requires n <= |items|
  {
    if n == 0 then 0
    else Asked(items, key, n - 1) + if Trim(items[n - 1].code) != "" && Key(items[n - 1].code) == key then 1 else 0
  }

  lemma {:induction false} NotAskedYet(items: seq<Item>, key: string, n: nat)
    requires n <= |items| && FindKey(Merge(items, n), key, |Merge(items, n)|).None?
    ensures Asked(items, key, n) == 0
  {
    if n > 0 {
      KeysStay(Merge(items, n - 1), items[n - 1], key);
      NotAskedYet(items, key, n - 1);
    }
  }

  /** A code asked for once keeps the amount it was asked at, worked out if there was none; one asked for more
      often is worth its whole quantity at its rate. */
  ghost predicate Worth(items: seq<Item>, n: nat, row: Item)
    requires n <= |items|
  {
    if Asked(items, RowKey(row), n) > 1 then row.amount == row.quantity * row.rate
    else
      exists k :: 0 <= k < n && Trim(items[k].code) != "" && Key(items[k].code) == RowKey(row)
               && row.amount == if items[k].amount == 0.0 then items[k].quantity * items[k].rate else items[k].amount
  }

  lemma WorthStays(items: seq<Item>, n: nat, row: Item)
    requires 0 < n <= |items| && Worth(items, n - 1, row)
    requires Trim(items[n - 1].code) == "" || Key(items[n - 1].code) != RowKey(row)
    ensures Worth(items, n, row)
  {
  }

  lemma {:induction false} AskedIsPositive(items: seq<Item>, n: nat, k: nat)
    requires k < n <= |items| && Trim(items[k].code) != ""
    ensures Asked(items, Key(items[k].code), n) > 0
  {
    if k < n - 1 {
      AskedIsPositive(items, n - 1, k);
    }
  }

  lemma JoinedIsWorth(items: seq<Item>, n: nat, row: Item)
    requires 0 < n <= |items| && Worth(items, n - 1, row)
    requires Trim(items[n - 1].code) != "" && Key(items[n - 1].code) == RowKey(row)
    ensures Worth(items, n, Joined(row, items[n - 1]))
  {
    if Asked(items, RowKey(row), n - 1) <= 1 {
      var k :| 0 <= k < n - 1 && Trim(items[k].code) != "" && Key(items[k].code) == RowKey(row)
               && row.amount == if items[k].amount == 0.0 then items[k].quantity * items[k].rate else items[k].amount;
      AskedIsPositive(items, n - 1, k);
    }
  }

  lemma FreshIsWorth(items: seq<Item>, n: nat)
    requires 0 < n <= |items| && Trim(items[n - 1].code) != "" && Asked(items, Key(items[n - 1].code), n - 1) == 0
    ensures Worth(items, n, Fresh(items[n - 1]))
  {
    FreshIsClean(items[n - 1]);
  }

  lemma {:induction false} MergeAmounts(items: seq<Item>, n: nat, i: nat)
    requires n <= |items| && i < |Merge(items, n)|
    ensures Worth(items, n, Merge(items, n)[i])
  {
    var rows, it := Merge(items, n - 1), items[n - 1];
    RowStep(items, n, i);
    if i < |rows| {
      MergeAmounts(items, n - 1, i);
      if Trim(it.code) != "" && Key(it.code) == RowKey(rows[i]) {
        JoinedIsWorth(items, n, rows[i]);
      } else {
        WorthStays(items, n, rows[i]);
      }
    } else {
      NotAskedYet(items, Key(it.code), n - 1);
      FreshIsWorth(items, n);
    }
  }

  const NAME: Item -> string := (it: Item) => it.name
  const WAREHOUSE: Item -> string := (it: Item) => it.warehouse
  const UOM: Item -> string := (it: Item) => it.uom
  const BATCH: Item -> string := (it: Item) => it.batch

  /** The text is the first one that is not blank among the first `n` lines that ask for the code, or they are all
      blank. */
  ghost predicate FirstTextGiven(items: seq<Item>, n: nat, key: string, f: Item -> string, text: string)
    requires n <= |items|
  {
    if Trim(text) == "" then forall k :: 0 <= k < n && AsksFor(items[k], key) ==> Trim(f(items[k])) == ""
    else
      exists k :: 0 <= k < n && AsksFor(items[k], key) && f(items[k]) == text
               && forall j :: 0 <= j < k && AsksFor(items[j], key) ==> Trim(f(items[j])) == ""
  }

  lemma TextStays(items: seq<Item>, n: nat, key: string, f: Item -> string, text: string)
    requires 0 < n <= |items| && FirstTextGiven(items, n - 1, key, f, text)
    requires AsksFor(items[n - 1], key) ==> Trim(text) != "" || Trim(f(items[n - 1])) == ""
    ensures FirstTextGiven(items, n, key, f, text)
  {
    if Trim(text) != "" {
      var k :| 0 <= k < n - 1 && AsksFor(items[k], key) && f(items[k]) == text
               && forall j :: 0 <= j < k && AsksFor(items[j], key) ==> Trim(f(items[j])) == "";
      assert 0 <= k < n;
    }
  }

  lemma TextJoins(items: seq<Item>, n: nat, key: string, f: Item -> string, text: string)
    requires 0 < n <= |items| && FirstTextGiven(items, n - 1, key, f, text) && AsksFor(items[n - 1], key)
    ensures FirstTextGiven(items, n, key, f, Prefer(text, f(items[n - 1])))
  {
    if Trim(text) != "" || Trim(f(items[n - 1])) == "" {
      TextStays(items, n, key, f, text);
    } else {
      assert f(items[n - 1]) == Prefer(text, f(items[n - 1]));
    }
  }

  lemma {:induction false} NoneAsked(items: seq<Item>, key: string, n: nat)
    requires n <= |items| && Asked(items, key, n) == 0
    ensures forall k :: 0 <= k < n ==> !AsksFor(items[k], key)
  {
    if n > 0 {
      NoneAsked(items, key, n - 1);
    }
  }

  lemma TextOf(row: Item, it: Item, f: Item -> string)
    requires f == NAME || f == WAREHOUSE || f == UOM || f == BATCH
    ensures f(Joined(row, it)) == Prefer(f(row), f(it)) && f(Fresh(it)) == f(it)
  {
  }

  lemma TextStep(items: seq<Item>, n: nat, row: Item, f: Item -> string)
    requires 0 < n <= |items| && FirstTextGiven(items, n - 1, RowKey(row), f, f(row))
    requires f(Joined(row, items[n - 1])) == Prefer(f(row), f(items[n - 1]))
    ensures var it := items[n - 1];
            FirstTextGiven(items, n, RowKey(row), f, f(if AsksFor(it, RowKey(row)) then Joined(row, it) else row))
  {
    if AsksFor(items[n - 1], RowKey(row)) {
      TextJoins(items, n, RowKey(row), f, f(row));
    } else {
      TextStays(items, n, RowKey(row), f, f(row));
    }
  }

  lemma FirstTextIs(items: seq<Item>, n: nat, f: Item -> string)
    requires 0 < n <= |items| && Trim(items[n - 1].code) != "" && Asked(items, Key(items[n - 1].code), n - 1) == 0
    ensures FirstTextGiven(items, n, Key(items[n - 1].code), f, f(items[n - 1]))
  {
    NoneAsked(items, Key(items[n - 1].code), n - 1);
    assert AsksFor(items[n - 1], Key(items[n - 1].code));
  }

  /** The name, warehouse, unit and batch of a merged line are each the first one given for its code. */
  lemma {:induction false} MergeTexts(items: seq<Item>, n: nat, i: nat, f: Item -> string)
    requires n <= |items| && i < |Merge(items, n)|
    requires f == NAME || f == WAREHOUSE || f == UOM || f == BATCH
    ensures FirstTextGiven(items, n, RowKey(Merge(items, n)[i]), f, f(Merge(items, n)[i]))
  {
    var rows, it := Merge(items, n - 1), items[n - 1];
    RowStep(items, n, i);
    if i < |rows| {
      MergeTexts(items, n - 1, i, f);
      TextOf(rows[i], it, f);
      TextStep(items, n, rows[i], f);
    } else {
      NotAskedYet(items, Key(it.code), n - 1);
      TextOf(it, it, f);
      FirstTextIs(items, n, f);
    }
  }

  /** The index maps every written key to its position. */
  ghost predicate Indexed(rows: seq<Item>, idx: map<string, nat>) {
    && (forall key :: key in idx ==> idx[key] < |rows| && RowKey(rows[idx[key]]) == key)
    && (forall i :: 0 <= i < |rows| ==> RowKey(rows[i]) in idx && idx[RowKey(rows[i])] == i)
  }

  lemma IndexFinds(rows: seq<Item>, idx: map<string, nat>, key: string)
    requires Indexed(rows, idx)
    ensures FindKey(rows, key, |rows|) == if key in idx then Some(idx[key]) else None
  {
  }

  lemma IndexKept(rows: seq<Item>, idx: map<string, nat>, i: nat, row: Item)
    requires Indexed(rows, idx) && i < |rows| && row.code == rows[i].code
    ensures Indexed(rows[i := row], idx)
  {
    forall j | 0 <= j < |rows| ensures RowKey(rows[i := row][j]) == RowKey(rows[j]) {
    }
  }

  lemma IndexGrown(rows: seq<Item>, idx: map<string, nat>, row: Item)
    requires Indexed(rows, idx) && RowKey(row) !in idx
    ensures Indexed(rows + [row], idx[RowKey(row) := |rows|])
  {
  }

  /** Join the line that already has the code, or write a new one. */
  method Place(rows: seq<Item>, idx: map<string, nat>, it: Item) returns (r: seq<Item>, next: map<string, nat>)
    requires Trim(it.code) != "" && Indexed(rows, idx)
    ensures r == MergeOne(rows, it) && Indexed(r, next)
  {
    var key := Key(it.code);
    IndexFinds(rows, idx, key);
    if key in idx {
      var i := idx[key];
      var row := rows[i].(quantity := rows[i].quantity + it.quantity);
      if row.rate == 0.0 && it.rate != 0.0 { row := row.(rate := it.rate); }
      row := row.(amount := row.quantity * row.rate);
      row := row.(name := Prefer(row.name, it.name), warehouse := Prefer(row.warehouse, it.warehouse));
      row := row.(uom := Prefer(row.uom, it.uom), batch := Prefer(row.batch, it.batch));
      assert row.quantity == Joined(rows[i], it).quantity && row.rate == Joined(rows[i], it).rate;
      assert row == Joined(rows[i], it);
      IndexKept(rows, idx, i, row);
      r, next := rows[i := row], idx;
    } else {
      FreshIsClean(it);
      IndexGrown(rows, idx, Fresh(it));
      r, next := rows + [Fresh(it)], idx[key := |rows|];
    }
  }

  /** The loop as it runs, with an index from key to position. */
  method MergeDuplicates(items: seq<Item>) returns (rows: seq<Item>)
    ensures rows == Merged(items)
  {
    rows := [];
    var idx: map<string, nat> := map[];
    var k := 0;
    while k < |items|
      invariant 0 <= k <= |items| && rows == Merge(items, k) && Indexed(rows, idx)
    {
      if Trim(items[k].code) != "" {
        rows, idx := Place(rows, idx, items[k]);
      }
      k := k + 1;
    }
  }
}
