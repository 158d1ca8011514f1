/** Spreading a quantity greedily over rows that each have a limited room. The loops of the outbound
    engine all have this shape; here it is given in closed form. */
module Greedy {
  import opened Sums

  const SAME: real -> real := (x: real) => x

  /** What is still to pour when the loop reaches row `k`. */
  function Remaining<T(!new)>(rows: seq<T>, k: nat, room: T -> real, q: real): real
    requires k <= |rows|
  {
    Max(q - Sum(rows, room, k), 0.0)
  }

  /** What row `i` receives when `q` is poured over the rows in order. */
  function Take<T(!new)>(rows: seq<T>, i: nat, room: T -> real, q: real): real
    requires i < |rows|
  {
    Min(room(rows[i]), Remaining(rows, i, room, q))
  }

  function Takes<T(!new)>(rows: seq<T>, room: T -> real, q: real): (r: seq<real>)
    ensures |r| == |rows|
  {
    seq(|rows|, (i: int) requires 0 <= i < |rows| => Take(rows, i, room, q))
  }

  lemma RemainingStep<T(!new)>(rows: seq<T>, k: nat, room: T -> real, q: real)
    requires k < |rows| && 0.0 <= room(rows[k])
    ensures Remaining(rows, k + 1, room, q) == Remaining(rows, k, room, q) - Take(rows, k, room, q)
    ensures 0.0 <= Take(rows, k, room, q) <= room(rows[k])
    ensures Take(rows, k, room, q) > 0.0 <==> room(rows[k]) > 0.0 && Remaining(rows, k, room, q) > 0.0
  {
  }

  /** A row's share is the growth of what the rows up to it receive together. */
  lemma TakeIsGrowth<T(!new)>(rows: seq<T>, k: nat, room: T -> real, q: real)
    requires k < |rows| && 0.0 <= room(rows[k])
    ensures Take(rows, k, room, q) == Min(q, Sum(rows, room, k + 1)) - Min(q, Sum(rows, room, k))
  {
  }

  /** The first `k` rows together receive the smaller of `q` and their room. */
  lemma {:induction false} TakesTotal<T(!new)>(rows: seq<T>, room: T -> real, q: real, k: nat)
    requires 0.0 <= q && k <= |rows|
    requires forall i :: 0 <= i < |rows| ==> 0.0 <= room(rows[i])
    ensures Sum(Takes(rows, room, q), SAME, k) == Min(q, Sum(rows, room, k))
  {
    if k > 0 {
      TakesTotal(rows, room, q, k - 1);
      TakeIsGrowth(rows, k - 1, room, q);
    }
  }

  /** A row receives nothing before every row ahead of it is full. */
  lemma FirstIsFilled<T(!new)>(rows: seq<T>, room: T -> real, q: real, i: nat, j: nat)
    requires i < j < |rows| && forall k :: 0 <= k < |rows| ==> 0.0 <= room(rows[k])
    requires Take(rows, j, room, q) > 0.0
    ensures Take(rows, i, room, q) == room(rows[i])
  {
    SumGrows(rows, room, i + 1, j);
  }

  /** A way of meeting at most `q` from the rows without exceeding any row. */
  ghost predicate Feasible<T(!new)>(rows: seq<T>, room: T -> real, q: real, plan: seq<real>) {
    && |plan| == |rows|
    && (forall i :: 0 <= i < |rows| ==> 0.0 <= plan[i] <= room(rows[i]))
    && Total(plan, SAME) <= q
  }

  lemma GreedyIsFeasible<T(!new)>(rows: seq<T>, room: T -> real, q: real)
    requires 0.0 <= q && forall i :: 0 <= i < |rows| ==> 0.0 <= room(rows[i])
    ensures Feasible(rows, room, q, Takes(rows, room, q))
  {
    TakesTotal(rows, room, q, |rows|);
  }

  /** No feasible plan draws more from any prefix of the rows than the greedy one does. */
  lemma GreedyIsOptimal<T(!new)>(rows: seq<T>, room: T -> real, q: real, plan: seq<real>, k: nat)
    requires 0.0 <= q && k <= |rows| && Feasible(rows, room, q, plan)
    requires forall i :: 0 <= i < |rows| ==> 0.0 <= room(rows[i])
    ensures Sum(plan, SAME, k) <= Sum(Takes(rows, room, q), SAME, k)
  {
    TakesTotal(rows, room, q, k);
    SumLe(plan, SAME, rows, room, k);
    SumGrows(plan, SAME, k, |plan|);
  }

  /** What row `i` gives back when `q` is taken off the rows from the last one up. */
  function Give<T(!new)>(rows: seq<T>, i: nat, held: T -> real, q: real): real
    requires i < |rows|
  {
    Min(held(rows[i]), Max(q - (Total(rows, held) - Sum(rows, held, i + 1)), 0.0))
  }

  function Gives<T(!new)>(rows: seq<T>, held: T -> real, q: real): (r: seq<real>)
    ensures |r| == |rows|
  {
    seq(|rows|, (i: int) requires 0 <= i < |rows| => Give(rows, i, held, q))
  }

  /** A row gives nothing back before every row behind it has given all it holds. */
  lemma LastIsEmptied<T(!new)>(rows: seq<T>, held: T -> real, q: real, i: nat, j: nat)
    requires i < j < |rows| && forall k :: 0 <= k < |rows| ==> 0.0 <= held(rows[k])
    requires Give(rows, i, held, q) > 0.0
    ensures Give(rows, j, held, q) == held(rows[j])
  {
    SumGrows(rows, held, i + 1, j);
  }

  /** Everything but the first `k` rows gives back the smaller of `q` and what it holds. */
  lemma {:induction false} GivesTotal<T(!new)>(rows: seq<T>, held: T -> real, q: real, k: nat)
    requires 0.0 <= q && k <= |rows|
    requires forall i :: 0 <= i < |rows| ==> 0.0 <= held(rows[i])
    ensures Total(Gives(rows, held, q), SAME) - Sum(Gives(rows, held, q), SAME, k)
              == Min(q, Total(rows, held) - Sum(rows, held, k))
    decreases |rows| - k
  {
    if k < |rows| {
      GivesTotal(rows, held, q, k + 1);
      assert Gives(rows, held, q)[k] == Give(rows, k, held, q);
    }
  }
}
