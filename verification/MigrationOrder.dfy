/** Writing the migration files: statements grouped by file, and ordered by rank without disturbing statements
    of equal rank. */
module MigrationOrder {
  import opened Wrappers
  import opened MigrationParser

  // Which file

  datatype File = CoreSchema | Operations | Extras

  const CORE_PREFIXES: seq<string> := [
    "public.users", "public.items", "public.warehouses", "public.customers",
    "public.suppliers", "public.companies", "public.currencies", "public.uoms",
    "public.customer_groups", "public.supplier_groups", "public.item_groups",
    "public.business_units", "public.fiscal_years", "public.cost_centers",
    "public.payment_terms", "public.employees", "public.motorcycle_models"]

  const OPERATIONS_PREFIXES: seq<string> := [
    "public.purchase_orders", "public.purchase_order_items", "public.sales_orders",
    "public.purchase_receipts", "public.purchase_invoices", "public.sales_invoices",
    "public.delivery_notes", "public.packing_slips", "public.grn_sessions",
    "public.grn_cartons", "public.grn_lines", "public.pick_lists", "public.pick_list_items",
    "public.boxes", "public.box_items", "public.delivery_trips", "public.delivery_stops"]

  predicate StartsWithAny(s: string, prefixes: seq<string>) {
    |prefixes| > 0 && (StartsWith(s, prefixes[0]) || StartsWithAny(s, prefixes[1..]))
  }

  function FileFor(table: Option<string>): File {
    if table.None? || table.value == "" then Extras
    else if StartsWithAny(table.value, CORE_PREFIXES) then CoreSchema
    else if StartsWithAny(table.value, OPERATIONS_PREFIXES) then Operations
    else Extras
  }

  lemma {:induction false} AnyStarts(s: string, prefixes: seq<string>)
    ensures StartsWithAny(s, prefixes) <==> exists k :: 0 <= k < |prefixes| && prefixes[k] <= s
  {
    if |prefixes| > 0 {
      AnyStarts(s, prefixes[1..]);
      assert forall k :: 1 <= k < |prefixes| ==> prefixes[k] == prefixes[1..][k - 1];
    }
  }

  lemma PrefixesNamed()
    ensures forall k :: 0 <= k < |CORE_PREFIXES| ==> !(CORE_PREFIXES[k] <= "")
    ensures forall k :: 0 <= k < |OPERATIONS_PREFIXES| ==> !(OPERATIONS_PREFIXES[k] <= "")
  {
  }

  /** A table whose name starts like one of the core tables goes with the core schema; of the others, one that starts
      like an operational table goes with those; everything else, and what belongs to no table, is an extra. */
  lemma FileOf(table: Option<string>)
    ensures var name := if table.Some? then table.value else "";
            var core := exists k :: 0 <= k < |CORE_PREFIXES| && CORE_PREFIXES[k] <= name;
            var operations := exists k :: 0 <= k < |OPERATIONS_PREFIXES| && OPERATIONS_PREFIXES[k] <= name;
            && (FileFor(table) == CoreSchema <==> core)
            && (FileFor(table) == Operations <==> operations && !core)
            && (FileFor(table) == Extras <==> !operations && !core)
  {
    var name := if table.Some? then table.value else "";
    PrefixesNamed();
    AnyStarts(name, CORE_PREFIXES);
    AnyStarts(name, OPERATIONS_PREFIXES);
  }

  /** The statements of one file, in dump order. */
  function GroupOf(items: seq<Item>, file: File, n: nat): seq<Item>
    requires n <= |items|
  {
    if n == 0 then []
    else if FileFor(items[n - 1].table) == file then GroupOf(items, file, n - 1) + [items[n - 1]]
    else GroupOf(items, file, n - 1)
  }

  /** The three groups together hold every statement exactly as often as the dump does. */
  lemma {:induction false} GroupsPartition(items: seq<Item>, n: nat, it: Item)
    requires n <= |items|
    ensures forall file :: multiset(GroupOf(items, file, n))[it] == if FileFor(it.table) == file then
            multiset(items[..n])[it] else 0
  {
    if n > 0 {
      GroupsPartition(items, n - 1, it);
      assert items[..n] == items[..n - 1] + [items[n - 1]];
    }
  }

  // In which order

  predicate IsKey(sql: string) { Contains(sql, "PRIMARY KEY") || Contains(sql, "UNIQUE") }

  function Rank(it: Item): (r: nat)
    ensures r <= 9
  {
    match it.kind
    case Sequence => 0
    case Table => 1
    case Default => 2
    case Constraint => if IsKey(it.sql) then 3 else 6
    case Index => 4
    case Owner => 9
  }

  ghost predicate Ranked(items: seq<Item>) {
    forall i, j :: 0 <= i < j < |items| ==> Rank(items[i]) <= Rank(items[j])
  }

  /** The statements of one rank, in order. */
  function OfRank(items: seq<Item>, rank: nat): seq<Item> {
    if |items| == 0 then []
    else
      var last := items[|items| - 1];
      if Rank(last) == rank then OfRank(items[..|items| - 1], rank) + [last] else OfRank(items[..|items| - 1], rank)
  }

  /** Put a statement after all that rank no higher. */
  function Insert(items: seq<Item>, it: Item): seq<Item> {
    if |items| == 0 then [it]
    else
      var last := items[|items| - 1];
      if Rank(last) <= Rank(it) then items + [it] else Insert(items[..|items| - 1], it) + [last]
  }

  function Sorted(items: seq<Item>): seq<Item> {
    if |items| == 0 then [] else Insert(Sorted(items[..|items| - 1]), items[|items| - 1])
  }

  lemma {:induction false} InsertMembers(items: seq<Item>, it: Item)
    ensures multiset(Insert(items, it)) == multiset(items) + multiset{it}
  {
    if |items| > 0 {
      var head, last := items[..|items| - 1], items[|items| - 1];
      assert items == head + [last];
      InsertMembers(head, it);
    }
  }

  ghost predicate AllWithin(items: seq<Item>, top: nat) { forall i :: 0 <= i < |items| ==> Rank(items[i]) <= top }

  lemma {:induction false} InsertRanks(items: seq<Item>, it: Item, top: nat)
    requires Ranked(items) && AllWithin(items, top) && Rank(it) <= top
    ensures Ranked(Insert(items, it)) && AllWithin(Insert(items, it), top)
  {
    if |items| > 0 {
      var head, last := items[..|items| - 1], items[|items| - 1];
      if Rank(last) > Rank(it) {
        InsertRanks(head, it, Rank(last));
      }
    }
  }

  lemma {:induction false} OfRankPush(items: seq<Item>, it: Item, rank: nat)
    ensures OfRank(items + [it], rank) == if Rank(it) == rank then OfRank(items, rank) + [it] else OfRank(items, rank)
  {
    assert (items + [it])[..|items|] == items;
  }

  lemma {:induction false} HigherOnly(items: seq<Item>, rank: nat)
    requires forall i :: 0 <= i < |items| ==> Rank(items[i]) != rank
    ensures OfRank(items, rank) == []
  {
    if |items| > 0 {
      HigherOnly(items[..|items| - 1], rank);
    }
  }

  lemma {:induction false} InsertIsStable(items: seq<Item>, it: Item, rank: nat)
    requires Ranked(items)
    ensures OfRank(Insert(items, it), rank) == if Rank(it) == rank then OfRank(items, rank) + [it]
            else OfRank(items, rank)
  {
    if |items| == 0 {
      assert [it][..0] == [];
    } else {
      var head, last := items[..|items| - 1], items[|items| - 1];
      assert items == head + [last];
      if Rank(last) <= Rank(it) {
        OfRankPush(items, it, rank);
      } else {
        InsertIsStable(head, it, rank);
        OfRankPush(Insert(head, it), last, rank);
      }
    }
  }

  lemma {:induction false} SortedRanks(items: seq<Item>)
    ensures Ranked(Sorted(items)) && AllWithin(Sorted(items), 9)
  {
    if |items| > 0 {
      SortedRanks(items[..|items| - 1]);
      InsertRanks(Sorted(items[..|items| - 1]), items[|items| - 1], 9);
    }
  }

  lemma {:induction false} SortedMembers(items: seq<Item>)
    ensures multiset(Sorted(items)) == multiset(items)
  {
    if |items| > 0 {
      var head, last := items[..|items| - 1], items[|items| - 1];
      assert items == head + [last];
      SortedMembers(head);
      InsertMembers(Sorted(head), last);
    }
  }

  /** The file order is a permutation of the group, ranked, and keeps dump order within a rank. */
  lemma {:induction false} SortedIsStable(items: seq<Item>, rank: nat)
    ensures Ranked(Sorted(items)) && multiset(Sorted(items)) == multiset(items)
    ensures OfRank(Sorted(items), rank) == OfRank(items, rank)
  {
    SortedRanks(items);
    SortedMembers(items);
    if |items| > 0 {
      SortedIsStable(items[..|items| - 1], rank);
      InsertIsStable(Sorted(items[..|items| - 1]), items[|items| - 1], rank);
    }
  }

  lemma {:induction false} RankMembers(items: seq<Item>, rank: nat)
    ensures OfRank(items, rank) != [] <==> exists i :: 0 <= i < |items| && Rank(items[i]) == rank
  {
    if |items| > 0 {
      RankMembers(items[..|items| - 1], rank);
    }
  }

  lemma LastRank(a: seq<Item>, b: seq<Item>)
    requires |a| > 0 && Ranked(b) && OfRank(b, Rank(a[|a| - 1])) == OfRank(a, Rank(a[|a| - 1]))
    ensures |b| > 0 && Rank(a[|a| - 1]) <= Rank(b[|b| - 1])
  {
    var top := Rank(a[|a| - 1]);
    RankMembers(a, top);
    RankMembers(b, top);
  }

  /** Taking the last statement off two orders that agree rank by rank, they still do. */
  lemma HeadsAgree(a: seq<Item>, b: seq<Item>, rank: nat)
    requires |a| > 0 && |b| > 0 && Rank(a[|a| - 1]) == Rank(b[|b| - 1])
    requires forall r: nat :: OfRank(a, r) == OfRank(b, r)
    ensures OfRank(a[..|a| - 1], rank) == OfRank(b[..|b| - 1], rank) && a[|a| - 1] == b[|b| - 1]
  {
    var top := Rank(a[|a| - 1]);
    assert OfRank(a, top) == OfRank(b, top) && OfRank(a, rank) == OfRank(b, rank);
    assert OfRank(a, top)[|OfRank(a, top)| - 1] == a[|a| - 1];
    assert OfRank(b, top)[|OfRank(b, top)| - 1] == b[|b| - 1];
    if rank == top {
      assert OfRank(a[..|a| - 1], rank) == OfRank(a, rank)[..|OfRank(a, rank)| - 1];
      assert OfRank(b[..|b| - 1], rank) == OfRank(b, rank)[..|OfRank(b, rank)| - 1];
    }
  }

  /** There is only one such order: whatever sort is used, if it is stable it writes the same file. */
  lemma {:induction false} StableSortIsUnique(a: seq<Item>, b: seq<Item>)
    requires Ranked(a) && Ranked(b) && forall rank: nat :: OfRank(a, rank) == OfRank(b, rank)
    ensures a == b
  {
    if |a| == 0 {
      if |b| > 0 {
        LastRank(b, a);
      }
    } else {
      LastRank(a, b);
      LastRank(b, a);
      var headA, headB := a[..|a| - 1], b[..|b| - 1];
      forall rank: nat ensures OfRank(headA, rank) == OfRank(headB, rank) {
        HeadsAgree(a, b, rank);
      }
      StableSortIsUnique(headA, headB);
      HeadsAgree(a, b, 0);
      assert a == headA + [a[|a| - 1]] && b == headB + [b[|b| - 1]];
    }
  }

  /** In every file a primary or unique key comes before every constraint that is neither. */
  lemma KeysFirst(items: seq<Item>, i: nat, j: nat)
    requires i < |Sorted(items)| && j < |Sorted(items)|
    requires Sorted(items)[i].kind == Constraint && IsKey(Sorted(items)[i].sql)
    requires Sorted(items)[j].kind == Constraint && !IsKey(Sorted(items)[j].sql)
    ensures i < j
  {
    SortedIsStable(items, 0);
  }

  /** A constraint that is a primary or unique key. */
  ghost predicate KeyConstraint(it: Item) {
    it.kind == Constraint && (Contains(it.sql, "PRIMARY KEY") || Contains(it.sql, "UNIQUE"))
  }

  /** What stands before a statement in its file: before a sequence only sequences, before a table those and tables,
      before a default those and defaults, before a key those and keys, before an index neither owners nor other
      constraints, and before such a constraint no owner. */
  lemma FileOrder(items: seq<Item>, i: nat, j: nat)
    requires i < j < |Sorted(items)|
    ensures var a, b := Sorted(items)[i], Sorted(items)[j];
            && (b.kind == Sequence ==> a.kind == Sequence)
            && (b.kind == Table ==> a.kind == Sequence || a.kind == Table)
            && (b.kind == Default ==> a.kind == Sequence || a.kind == Table || a.kind == Default)
            && (KeyConstraint(b) ==> a.kind != Index && a.kind != Owner && (a.kind == Constraint ==> KeyConstraint(a)))
            && (b.kind == Index ==> a.kind != Owner && (a.kind == Constraint ==> KeyConstraint(a)))
            && (b.kind == Constraint ==> a.kind != Owner)
  {
    SortedIsStable(items, 0);
  }

  // The generator as it runs

  method SortByRank(items: seq<Item>) returns (r: seq<Item>)
    ensures r == Sorted(items)
  {
    r := [];
    var k := 0;
    while k < |items|
      invariant 0 <= k <= |items| && r == Sorted(items[..k])
    {
      assert items[..k + 1][..k] == items[..k];
      r := Insert(r, items[k]);
      k := k + 1;
    }
    assert items[..k] == items;
  }

  method Generate(items: seq<Item>) returns (core: seq<Item>, operations: seq<Item>, extras: seq<Item>)
    ensures core == Sorted(GroupOf(items, CoreSchema, |items|))
    ensures operations == Sorted(GroupOf(items, Operations, |items|))
    ensures extras == Sorted(GroupOf(items, Extras, |items|))
  {
    core, operations, extras := [], [], [];
    var k := 0;
    while k < |items|
      invariant 0 <= k <= |items|
      invariant core == GroupOf(items, CoreSchema, k)
      invariant operations == GroupOf(items, Operations, k)
      invariant extras == GroupOf(items, Extras, k)
    {
      match FileFor(items[k].table) {
        case CoreSchema => core := core + [items[k]];
        case Operations => operations := operations + [items[k]];
        case Extras => extras := extras + [items[k]];
      }
      k := k + 1;
    }
    core := SortByRank(core);
    operations := SortByRank(operations);
    extras := SortByRank(extras);
  }
}
