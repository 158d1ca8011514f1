/** Sums over the rows of a table, in exact real arithmetic. A measure is a function of one row;
    measures that take parameters are functions returning a measure, so that two mentions of the
    same measure are the same value. */
module Sums {

  function Max(a: real, b: real): real { if a >= b then a else b }

  function Min(a: real, b: real): real { if a <= b then a else b }

  /** The measure of the first `k` rows. */
  function Sum<T(!new)>(rows: seq<T>, f: T -> real, k: nat): real
    requires k <= |rows|
  {
    if k == 0 then 0.0 else Sum(rows, f, k - 1) + f(rows[k - 1])
  }

  function Total<T(!new)>(rows: seq<T>, f: T -> real): real { Sum(rows, f, |rows|) }

  lemma {:induction false} SumSame<A(!new), B(!new)>(a: seq<A>, f: A -> real, b: seq<B>, g: B -> real, k: nat)
    requires k <= |a| && k <= |b|
    requires forall i :: 0 <= i < k ==> f(a[i]) == g(b[i])
    ensures Sum(a, f, k) == Sum(b, g, k)
  {
    if k > 0 {
      SumSame(a, f, b, g, k - 1);
    }
  }

  lemma TotalSame<A(!new), B(!new)>(a: seq<A>, f: A -> real, b: seq<B>, g: B -> real)
    requires |a| == |b|
    requires forall i :: 0 <= i < |a| ==> f(a[i]) == g(b[i])
    ensures Total(a, f) == Total(b, g)
  {
    SumSame(a, f, b, g, |a|);
  }

  lemma TotalPush<T(!new)>(rows: seq<T>, row: T, f: T -> real)
    ensures Total(rows + [row], f) == Total(rows, f) + f(row)
  {
    SumSame(rows + [row], f, rows, f, |rows|);
  }

  lemma {:induction false} TotalAppend<T(!new)>(a: seq<T>, b: seq<T>, f: T -> real)
    ensures Total(a + b, f) == Total(a, f) + Total(b, f)
  {
    if |b| == 0 {
      assert a + b == a;
    } else {
      var n := |b| - 1;
      assert a + b == (a + b[..n]) + [b[n]] && b == b[..n] + [b[n]];
      TotalAppend(a, b[..n], f);
      TotalPush(a + b[..n], b[n], f);
      TotalPush(b[..n], b[n], f);
    }
  }

  /** Rewriting one row moves the sum by the difference between the two rows. */
  lemma {:induction false} SumUpdate<T(!new)>(rows: seq<T>, i: nat, row: T, f: T -> real, k: nat)
    requires i < |rows| && k <= |rows|
    ensures Sum(rows[i := row], f, k) == Sum(rows, f, k) + (if i < k then f(row) - f(rows[i]) else 0.0)
  {
    if k > 0 {
      SumUpdate(rows, i, row, f, k - 1);
    }
  }

  lemma TotalUpdate<T(!new)>(rows: seq<T>, i: nat, row: T, f: T -> real)
    requires i < |rows|
    ensures Total(rows[i := row], f) == Total(rows, f) + f(row) - f(rows[i])
  {
    SumUpdate(rows, i, row, f, |rows|);
  }

  /** Every row of `c` is worth the rows of `a` and `b` beside it together. */
  lemma {:induction false} SumAdd<A(!new), B(!new), C(!new)>(
    a: seq<A>, f: A -> real, b: seq<B>, g: B -> real, c: seq<C>, h: C -> real, k: nat)
    requires k <= |a| && k <= |b| && k <= |c|
    requires forall i :: 0 <= i < k ==> h(c[i]) == f(a[i]) + g(b[i])
    ensures Sum(c, h, k) == Sum(a, f, k) + Sum(b, g, k)
  {
    if k > 0 {
      SumAdd(a, f, b, g, c, h, k - 1);
    }
  }

  lemma TotalAdd<A(!new), B(!new), C(!new)>(
    a: seq<A>, f: A -> real, b: seq<B>, g: B -> real, c: seq<C>, h: C -> real)
    requires |a| == |b| == |c|
    requires forall i :: 0 <= i < |a| ==> h(c[i]) == f(a[i]) + g(b[i])
    ensures Total(c, h) == Total(a, f) + Total(b, g)
  {
    SumAdd(a, f, b, g, c, h, |a|);
  }

  lemma {:induction false} SumLe<A(!new), B(!new)>(a: seq<A>, f: A -> real, b: seq<B>, g: B -> real, k: nat)
    requires k <= |a| && k <= |b|
    requires forall i :: 0 <= i < k ==> f(a[i]) <= g(b[i])
    ensures Sum(a, f, k) <= Sum(b, g, k)
  {
    if k > 0 {
      SumLe(a, f, b, g, k - 1);
    }
  }

  lemma TotalLe<A(!new), B(!new)>(a: seq<A>, f: A -> real, b: seq<B>, g: B -> real)
    requires |a| == |b|
    requires forall i :: 0 <= i < |a| ==> f(a[i]) <= g(b[i])
    ensures Total(a, f) <= Total(b, g)
  {
    SumLe(a, f, b, g, |a|);
  }

  /** A bound of one part in ten thousand on every row is one on the sum. */
  lemma {:induction false} SumScaled<A(!new), B(!new)>(a: seq<A>, f: A -> real, b: seq<B>, g: B -> real, k: nat)
    requires k <= |a| && k <= |b|
    requires forall i :: 0 <= i < k ==> f(a[i]) <= g(b[i]) * 0.0001
    ensures Sum(a, f, k) <= Sum(b, g, k) * 0.0001
  {
    if k > 0 {
      SumScaled(a, f, b, g, k - 1);
    }
  }

  /** With no negative row among them, prefixes only grow. */
  lemma {:induction false} SumGrows<T(!new)>(rows: seq<T>, f: T -> real, j: nat, k: nat)
    requires j <= k <= |rows|
    requires forall i :: j <= i < k ==> 0.0 <= f(rows[i])
    ensures Sum(rows, f, j) <= Sum(rows, f, k)
  {
    if j < k {
      SumGrows(rows, f, j, k - 1);
    }
  }

  lemma TotalNonNegative<T(!new)>(rows: seq<T>, f: T -> real)
    requires forall i :: 0 <= i < |rows| ==> 0.0 <= f(rows[i])
    ensures 0.0 <= Total(rows, f)
  {
    SumGrows(rows, f, 0, |rows|);
  }

  /** One row is worth no more than its table when no row is negative. */
  lemma TotalAtLeastRow<T(!new)>(rows: seq<T>, i: nat, f: T -> real)
    requires i < |rows|
    requires forall j :: 0 <= j < |rows| ==> 0.0 <= f(rows[j])
    ensures f(rows[i]) <= Total(rows, f)
  {
    SumGrows(rows, f, 0, i);
    SumGrows(rows, f, i + 1, |rows|);
  }

  lemma {:induction false} TotalZero<T(!new)>(rows: seq<T>, f: T -> real, k: nat)
    requires k <= |rows| && forall i :: 0 <= i < k ==> f(rows[i]) == 0.0
    ensures Sum(rows, f, k) == 0.0
  {
    if k > 0 {
      TotalZero(rows, f, k - 1);
    }
  }

  lemma TotalOfOne<T(!new)>(rows: seq<T>, f: T -> real)
    requires |rows| == 1
    ensures Total(rows, f) == f(rows[0])
  {
    assert Sum(rows, f, 0) == 0.0;
  }

  lemma TotalOfTwo<T(!new)>(rows: seq<T>, f: T -> real)
    requires |rows| == 2
    ensures Total(rows, f) == f(rows[0]) + f(rows[1])
  {
    assert Sum(rows, f, 1) == Sum(rows, f, 0) + f(rows[0]);
  }
}
