/** Query sets are modelled as sequences of records. `Filter` is the ORM's
    `filter`/`exclude`: it keeps, in order, the records a predicate accepts. */
module Seqs {

  /** The records of `xs` accepted by `p`, in their original order. */
  function Filter<T(!new)>(xs: seq<T>, p: T -> bool): (r: seq<T>)
    ensures |r| <= |xs|
    ensures forall x :: x in r <==> x in xs && p(x)
  {
    if xs == [] then [] else (if p(xs[0]) then [xs[0]] else []) + Filter(xs[1..], p)
  }

  /** `filter(q)` and `exclude(q)` of the same query split the input: every
      record lands in exactly one of the two results. */
  lemma {:induction false} FilterPartition<T(!new)>(xs: seq<T>, p: T -> bool, q: T -> bool)
    requires forall x :: q(x) == !p(x)
    ensures multiset(Filter(xs, p)) + multiset(Filter(xs, q)) == multiset(xs)
    ensures |Filter(xs, p)| + |Filter(xs, q)| == |xs|
  {
    if xs != [] {
      FilterPartition(xs[1..], p, q);
      assert xs == [xs[0]] + xs[1..];
    }
  }

  /** Filtering by a predicate every record satisfies changes nothing. */
  lemma {:induction false} FilterKeepsAll<T(!new)>(xs: seq<T>, p: T -> bool)
    requires forall x :: x in xs ==> p(x)
    ensures Filter(xs, p) == xs
  {
    if xs != [] {
      FilterKeepsAll(xs[1..], p);
      assert xs == [xs[0]] + xs[1..];
    }
  }

  /** Filtering by a predicate no record satisfies leaves nothing. */
  lemma {:induction false} FilterKeepsNone<T(!new)>(xs: seq<T>, p: T -> bool)
    requires forall x :: x in xs ==> !p(x)
    ensures Filter(xs, p) == []
  {
    if xs != [] {
      FilterKeepsNone(xs[1..], p);
    }
  }

  /** A filter that loses no record accepts every record. */
  lemma {:induction false} FilterFullLength<T(!new)>(xs: seq<T>, p: T -> bool)
    requires |Filter(xs, p)| == |xs|
    ensures forall x :: x in xs ==> p(x)
  {
    if xs != [] {
      assert p(xs[0]);
      FilterFullLength(xs[1..], p);
    }
  }

  /** Two filters in a row are one filter by the conjunction. */
  lemma {:induction false} FilterFuse<T(!new)>(xs: seq<T>, p: T -> bool, q: T -> bool, pq: T -> bool)
    requires forall x :: pq(x) == (p(x) && q(x))
    ensures Filter(Filter(xs, p), q) == Filter(xs, pq)
  {
    if xs != [] {
      FilterFuse(xs[1..], p, q, pq);
      var rest := Filter(xs[1..], p);
      if p(xs[0]) {
        var ys := Filter(xs, p);
        assert ys == [xs[0]] + rest;
        assert ys[1..] == rest;
        assert Filter(ys, q) == (if q(xs[0]) then [xs[0]] else []) + Filter(rest, q);
      } else {
        assert Filter(xs, p) == rest;
      }
    }
  }

  /** Filters by pointwise equal predicates agree. */
  lemma {:induction false} FilterExt<T(!new)>(xs: seq<T>, p: T -> bool, q: T -> bool)
    requires forall x :: p(x) == q(x)
    ensures Filter(xs, p) == Filter(xs, q)
  {
    if xs != [] {
      FilterExt(xs[1..], p, q);
    }
  }

  /** The order of two filters does not matter. */
  lemma FilterCommute<T(!new)>(xs: seq<T>, p: T -> bool, q: T -> bool)
    ensures Filter(Filter(xs, p), q) == Filter(Filter(xs, q), p)
  {
    var pq := x => p(x) && q(x);
    FilterFuse(xs, p, q, pq);
    FilterFuse(xs, q, p, pq);
  }

  /** Filtering is idempotent. */
  lemma FilterIdempotent<T(!new)>(xs: seq<T>, p: T -> bool)
    ensures Filter(Filter(xs, p), p) == Filter(xs, p)
  {
    FilterKeepsAll(Filter(xs, p), p);
  }

  /** Postgres array containment (`@>`): every wanted element occurs in `have`. */
  predicate ContainsAll<T(==)>(have: seq<T>, want: seq<T>) {
    forall i :: 0 <= i < |want| ==> want[i] in have
  }

  /** Containment of a non-empty list is its head plus containment of its tail. */
  lemma ContainsAllCons<T>(have: seq<T>, want: seq<T>)
    requires want != []
    ensures ContainsAll(have, want) <==> want[0] in have && ContainsAll(have, want[1..])
  {
    if want[0] in have && ContainsAll(have, want[1..]) {
      forall i | 0 <= i < |want| ensures want[i] in have {
        if i > 0 { assert want[i] == want[1..][i - 1]; }
      }
    }
  }

  /** Postgres array overlap (`&&`): some wanted element occurs in `have`. */
  predicate Overlaps<T(==)>(have: seq<T>, want: seq<T>) {
    exists i :: 0 <= i < |want| && want[i] in have
  }

  /** A list without repeated elements. */
  predicate NoDup<T(==)>(xs: seq<T>) {
    forall i, j :: 0 <= i < j < |xs| ==> xs[i] != xs[j]
  }
}
