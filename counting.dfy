/** The store's query primitives: `Model.query.filter(...).count()` and
    `.filter_by(...).all()` over a table given as a sequence of rows, with the
    filter conditions given as one predicate on a row. */
module Counting {
  import opened Wrappers

  /** `.count()`: the number of rows that satisfy the filter. */
  function CountWhere<T>(rows: seq<T>, p: T -> bool): (n: nat)
    ensures n <= |rows|
  {
    if rows == [] then 0 else (if p(rows[0]) then 1 else 0) + CountWhere(rows[1..], p)
  }

  /** `.all()`: every row that satisfies the filter, each as often as it
      occurs, in the order the store returns them (no `order_by` is asked
      for, so no order is promised). */
  function Filter<T(!new)>(rows: seq<T>, p: T -> bool): (kept: seq<T>)
    ensures |kept| == CountWhere(rows, p)
    ensures forall x :: x in kept <==> x in rows && p(x)
    ensures forall x :: multiset(kept)[x] == if p(x) then multiset(rows)[x] else 0
  {
    if rows == [] then []
    else
      assert rows == [rows[0]] + rows[1..];
      if p(rows[0]) then [rows[0]] + Filter(rows[1..], p)
      else Filter(rows[1..], p)
  }

  /** A row whose (possibly absent) timestamp lies in `[lo, hi]`, both ends
      included; an absent timestamp matches no window, as SQL NULL does not. */
  function Between<T(!new)>(keep: T -> bool, time: T -> Option<int>, lo: int, hi: int): (p: T -> bool)
    ensures forall x :: p(x) ==> keep(x) && time(x).Some?
    ensures forall x :: time(x).None? ==> !p(x)
    ensures forall x :: keep(x) && time(x) == Some(lo) && lo <= hi ==> p(x)
    ensures forall x :: keep(x) && time(x) == Some(hi) && lo <= hi ==> p(x)
  {
    x => keep(x) && time(x).Some? && lo <= time(x).value <= hi
  }

  /** A weaker filter counts at least as many rows. */
  lemma {:induction false} CountMonotone<T>(rows: seq<T>, p: T -> bool, q: T -> bool)
    requires forall x :: p(x) ==> q(x)
    ensures CountWhere(rows, p) <= CountWhere(rows, q)
  {
    if rows != [] {
      CountMonotone(rows[1..], p, q);
    }
  }

  /** Two filters that no row satisfies at once, both inside a third: their
      counts add up to at most the third's. */
  lemma {:induction false} CountDisjoint<T>(rows: seq<T>, p: T -> bool, q: T -> bool, r: T -> bool)
    requires forall x :: p(x) ==> r(x)
    requires forall x :: q(x) ==> r(x)
    requires forall x :: !(p(x) && q(x))
    ensures CountWhere(rows, p) + CountWhere(rows, q) <= CountWhere(rows, r)
  {
    if rows != [] {
      CountDisjoint(rows[1..], p, q, r);
    }
  }

  /** Two disjoint filters whose union is a third count exactly as the third. */
  lemma {:induction false} CountUnion<T>(rows: seq<T>, p: T -> bool, q: T -> bool, r: T -> bool)
    requires forall x :: r(x) <==> p(x) || q(x)
    requires forall x :: !(p(x) && q(x))
    ensures CountWhere(rows, p) + CountWhere(rows, q) == CountWhere(rows, r)
  {
    if rows != [] {
      CountUnion(rows[1..], p, q, r);
    }
  }

  /** A narrower filter counts exactly as many rows as a wider one if and only
      if every row the wider one admits is admitted by the narrower one. */
  lemma {:induction false} CountSameIff<T>(rows: seq<T>, p: T -> bool, q: T -> bool)
    requires forall x :: p(x) ==> q(x)
    ensures CountWhere(rows, p) == CountWhere(rows, q)
            <==> forall k :: 0 <= k < |rows| && q(rows[k]) ==> p(rows[k])
  {
    if rows != [] {
      CountSameIff(rows[1..], p, q);
      CountMonotone(rows[1..], p, q);
      assert forall k :: 1 <= k < |rows| ==> rows[k] == rows[1..][k - 1];
    }
  }

  /** No row is counted if and only if no row satisfies the filter. */
  lemma {:induction false} CountZeroIff<T>(rows: seq<T>, p: T -> bool)
    ensures CountWhere(rows, p) == 0 <==> forall k :: 0 <= k < |rows| ==> !p(rows[k])
  {
    if rows != [] {
      CountZeroIff(rows[1..], p);
      assert forall k :: 1 <= k < |rows| ==> rows[k] == rows[1..][k - 1];
    }
  }
}
