/** The leaves of a comparison report: one count (or sum) per owner, and the
    single pass that adds every record's weight into the buckets it hits.

    An axis is a map from bucket key to leaf, seeded with a zero leaf for every
    declared category value before any record is read. */
module Tallies {
  import opened Seqs

  /** Whose column a record is added to. */
  datatype Side = Summoner | Follower

  /** The derived `winner` of a leaf. */
  datatype Winner = SummonerWins | FollowerWins | Tie

  /** A `{summoner, follower}` leaf. */
  datatype Tally = Tally(summoner: int, follower: int) {

    function Of(side: Side): int {
      if side == Summoner then summoner else follower
    }

    /** `leaf[side] += w`. */
    function Add(side: Side, w: int): (t: Tally)
      ensures t.Of(side) == Of(side) + w
      ensures forall other :: other != side ==> t.Of(other) == Of(other)
    {
      if side == Summoner then Tally(summoner + w, follower) else Tally(summoner, follower + w)
    }
  }

  const Zero := Tally(0, 0)

  /** Owner attribution: the follower's records go to the follower column,
      records of any other owner to the summoner column. */
  function SideOf(owner: nat, follower: nat): (s: Side)
    ensures s == Follower <==> owner == follower
    ensures s == Summoner <==> owner != follower
  {
    if owner == follower then Follower else Summoner
  }

  /** The winner rule applied to every leaf: strict majority, otherwise a tie. */
  function Decide(t: Tally): (w: Winner)
    ensures w == SummonerWins <==> t.summoner > t.follower
    ensures w == FollowerWins <==> t.summoner < t.follower
    ensures w == Tie <==> t.summoner == t.follower
  {
    if t.summoner > t.follower then SummonerWins
    else if t.summoner < t.follower then FollowerWins
    else Tie
  }

  /** How many times `k` occurs in `ks`. */
  function Occurrences<K(==,!new)>(k: K, ks: seq<K>): nat {
    if ks == [] then 0 else (if ks[0] == k then 1 else 0) + Occurrences(k, ks[1..])
  }

  /** Distributes a weight over the first occurrence and the rest. */
  lemma OccurrencesStep<K(!new)>(ks: seq<K>, w: int)
    requires ks != []
    ensures forall k :: w * Occurrences(k, ks) == (if ks[0] == k then w else 0) + w * Occurrences(k, ks[1..])
  {
    forall k {
      MulStep(w, Occurrences(k, ks[1..]));
    }
  }

  lemma MulStep(w: int, n: nat)
    ensures w * (n + 1) == w + w * n
  {
  }

  /** Every bucket a record of `es` hits is present in the axis. */
  ghost predicate Covered<E(!new), K(!new)>(keys: set<K>, es: seq<E>, keysOf: E -> seq<K>) {
    forall e, k :: e in es && k in keysOf(e) ==> k in keys
  }

  /** Reference definition of a bucket: the weight the records of one side put
      into bucket `k`, each record counted once per occurrence of `k` in its
      bucket list. */
  function KeyTotal<E(!new), K(==,!new)>(es: seq<E>, keysOf: E -> seq<K>, sideOf: E -> Side, weight: E -> int,
                          side: Side, k: K): int
  {
    if es == [] then 0
    else (if sideOf(es[0]) == side then weight(es[0]) * Occurrences(k, keysOf(es[0])) else 0)
         + KeyTotal(es[1..], keysOf, sideOf, weight, side, k)
  }

  /** Reference definition of what one side adds to an axis in all: each record
      its weight times the number of buckets it hits. */
  function Load<E(!new), K(==,!new)>(es: seq<E>, keysOf: E -> seq<K>, sideOf: E -> Side, weight: E -> int, side: Side): int {
    if es == [] then 0
    else (if sideOf(es[0]) == side then weight(es[0]) * |keysOf(es[0])| else 0)
         + Load(es[1..], keysOf, sideOf, weight, side)
  }

  /** Reference definition of a single `{summoner, follower}` total, such as
      `count` or `worth`. */
  function Total<E(!new)>(es: seq<E>, sideOf: E -> Side, weight: E -> int): (t: Tally) {
    if es == [] then Zero else Total(es[1..], sideOf, weight).Add(sideOf(es[0]), weight(es[0]))
  }

  /** The pre-seeded axis: a zero leaf for every declared category value. */
  function Seed<K(==,!new)>(keys: seq<K>): (a: map<K, Tally>)
    ensures forall k :: k in a <==> k in keys
    ensures forall k :: k in a ==> a[k] == Zero
  {
    map k | k in keys :: Zero
  }

  /** One record's increments: `axis[k][side] += w` for each `k` of `ks`, in order. */
  function Bump<K(==,!new)>(a: map<K, Tally>, ks: seq<K>, side: Side, w: int): (b: map<K, Tally>)
    requires forall k :: k in ks ==> k in a
    ensures b.Keys == a.Keys
    ensures forall k :: k in a ==> b[k] == a[k].Add(side, w * Occurrences(k, ks))
    decreases |ks|
  {
    if ks == [] then a
    else
      var a' := a[ks[0] := a[ks[0]].Add(side, w)];
      var b := Bump(a', ks[1..], side, w);
      OccurrencesStep(ks, w);
      b
  }

  /** The population pass over one axis: every record, in order, adds its
      weight to its own side of each bucket it hits. The result agrees, bucket
      by bucket and side by side, with the reference `KeyTotal`. */
  function Tabulate<E(!new), K(==,!new)>(a: map<K, Tally>, es: seq<E>, keysOf: E -> seq<K>, sideOf: E -> Side,
                          weight: E -> int): (b: map<K, Tally>)
    requires Covered(a.Keys, es, keysOf)
    ensures b.Keys == a.Keys
    ensures forall k, side :: k in a ==>
      b[k].Of(side) == a[k].Of(side) + KeyTotal(es, keysOf, sideOf, weight, side, k)
    decreases |es|
  {
    if es == [] then a
    else
      var e := es[0];
      assert e in es;
      var b := Tabulate(Bump(a, keysOf(e), sideOf(e), weight(e)), es[1..], keysOf, sideOf, weight);
      b
  }

  /** The sum of one side's column over the listed buckets. */
  function SumOver<K(==,!new)>(keys: seq<K>, a: map<K, Tally>, side: Side): int
    requires forall k :: k in keys ==> k in a
  {
    if keys == [] then 0 else a[keys[0]].Of(side) + SumOver(keys[1..], a, side)
  }

  lemma {:induction false} SumOverSeed<K(!new)>(keys: seq<K>, side: Side)
    ensures SumOver(keys, Seed(keys), side) == 0
  {
    if keys != [] {
      SumOverSeed(keys[1..], side);
      SumOverFrame(keys[1..], Seed(keys[1..]), Seed(keys), side);
    }
  }

  /** `SumOver` only reads the listed buckets. */
  lemma {:induction false} SumOverFrame<K(!new)>(keys: seq<K>, a: map<K, Tally>, b: map<K, Tally>, side: Side)
    requires forall k :: k in keys ==> k in a && k in b && a[k] == b[k]
    ensures SumOver(keys, a, side) == SumOver(keys, b, side)
  {
    if keys != [] {
      SumOverFrame(keys[1..], a, b, side);
    }
  }

  /** Replacing one listed bucket changes the column sum by the difference. */
  lemma {:induction false} SumOverUpdate<K(!new)>(keys: seq<K>, a: map<K, Tally>, k: K, t: Tally, side: Side)
    requires NoDup(keys) && k in keys
    requires forall j :: j in keys ==> j in a
    ensures SumOver(keys, a[k := t], side) == SumOver(keys, a, side) - a[k].Of(side) + t.Of(side)
  {
    if keys[0] == k {
      assert k !in keys[1..];
      SumOverFrame(keys[1..], a, a[k := t], side);
    } else {
      SumOverUpdate(keys[1..], a, k, t, side);
    }
  }

  /** One record adds `w` to its side's column once per bucket it hits. */
  lemma {:induction false} SumOverBump<K(!new)>(keys: seq<K>, a: map<K, Tally>, ks: seq<K>, s: Side, w: int, side: Side)
    requires NoDup(keys)
    requires forall j :: j in keys ==> j in a
    requires forall j :: j in ks ==> j in keys
    ensures SumOver(keys, Bump(a, ks, s, w), side) == SumOver(keys, a, side) + (if s == side then w * |ks| else 0)
    decreases |ks|
  {
    if ks != [] {
      var a' := a[ks[0] := a[ks[0]].Add(s, w)];
      SumOverUpdate(keys, a, ks[0], a[ks[0]].Add(s, w), side);
      SumOverBump(keys, a', ks[1..], s, w, side);
      MulStep(w, |ks[1..]|);
    }
  }

  /** Bucket sums: over a duplicate-free list of buckets that every record's
      hits fall into, the pass adds exactly the reference `Load` to each side. */
  lemma {:induction false} TabulateSum<E(!new), K(!new)>(keys: seq<K>, a: map<K, Tally>, es: seq<E>, keysOf: E -> seq<K>,
                                              sideOf: E -> Side, weight: E -> int, side: Side)
    requires NoDup(keys)
    requires forall j :: j in a <==> j in keys
    requires forall e, k :: e in es && k in keysOf(e) ==> k in keys
    ensures SumOver(keys, Tabulate(a, es, keysOf, sideOf, weight), side)
            == SumOver(keys, a, side) + Load(es, keysOf, sideOf, weight, side)
    decreases |es|
  {
    if es != [] {
      var e := es[0];
      assert e in es;
      var a' := Bump(a, keysOf(e), sideOf(e), weight(e));
      SumOverBump(keys, a, keysOf(e), sideOf(e), weight(e), side);
      TabulateSum(keys, a', es[1..], keysOf, sideOf, weight, side);
    }
  }

  /** With one bucket per record, `Load` is the plain per-side total. */
  lemma {:induction false} LoadSingle<E(!new), K(!new)>(es: seq<E>, keysOf: E -> seq<K>, sideOf: E -> Side, weight: E -> int, side: Side)
    requires forall e :: e in es ==> |keysOf(e)| == 1
    ensures Load(es, keysOf, sideOf, weight, side) == Total(es, sideOf, weight).Of(side)
  {
    if es != [] {
      assert es[0] in es;
      LoadSingle(es[1..], keysOf, sideOf, weight, side);
    }
  }

  /** A bucket no record of either side hits keeps its zero leaf, and its
      winner is a tie. */
  lemma {:induction false} UnhitBucket<E(!new), K(!new)>(es: seq<E>, keysOf: E -> seq<K>, sideOf: E -> Side, weight: E -> int, k: K)
    requires forall e :: e in es ==> k !in keysOf(e)
    ensures KeyTotal(es, keysOf, sideOf, weight, Summoner, k) == 0
    ensures KeyTotal(es, keysOf, sideOf, weight, Follower, k) == 0
  {
    if es != [] {
      assert es[0] in es;
      OccurrencesAbsent(k, keysOf(es[0]));
      UnhitBucket(es[1..], keysOf, sideOf, weight, k);
    }
  }

  lemma {:induction false} OccurrencesAbsent<K(!new)>(k: K, ks: seq<K>)
    requires k !in ks
    ensures Occurrences(k, ks) == 0
  {
    if ks != [] {
      OccurrencesAbsent(k, ks[1..]);
    }
  }

  /** The weight of a record that counts once. */
  function Unit<E>(e: E): int {
    1
  }

  /** The records whose category under `keyOf` is `k`. */
  function InBucket<E, K(==)>(keyOf: E -> K, k: K): E -> bool {
    e => keyOf(e) == k
  }

  /** With one bucket per record, a bucket of the pass holds the per-side
      total of exactly the records whose category is `k`. */
  lemma {:induction false} KeyTotalSingle<E(!new), K(!new)>(es: seq<E>, keysOf: E -> seq<K>, key: E -> K,
                                                          sideOf: E -> Side, weight: E -> int, side: Side, k: K)
    requires forall e :: keysOf(e) == [key(e)]
    ensures KeyTotal(es, keysOf, sideOf, weight, side, k)
            == Total(Filter(es, InBucket(key, k)), sideOf, weight).Of(side)
  {
    if es != [] {
      KeyTotalSingle(es[1..], keysOf, key, sideOf, weight, side, k);
      var e := es[0];
      assert keysOf(e) == [key(e)];
      assert Occurrences(k, [key(e)]) == (if key(e) == k then 1 else 0);
      if key(e) == k {
        var fs := Filter(es, InBucket(key, k));
        assert fs == [e] + Filter(es[1..], InBucket(key, k));
        assert fs[0] == e && fs[1..] == Filter(es[1..], InBucket(key, k));
        assert Total(fs, sideOf, weight) == Total(fs[1..], sideOf, weight).Add(sideOf(e), weight(e));
        var rest := KeyTotal(es[1..], keysOf, sideOf, weight, side, k);
        assert Occurrences(k, keysOf(e)) == 1;
        assert KeyTotal(es, keysOf, sideOf, weight, side, k) == (if sideOf(e) == side then weight(e) else 0) + rest;
        assert Total(fs, sideOf, weight).Of(side) == (if sideOf(e) == side then weight(e) else 0) + Total(fs[1..], sideOf, weight).Of(side);
      } else {
        assert !InBucket(key, k)(e);
        assert Filter(es, InBucket(key, k)) == Filter(es[1..], InBucket(key, k));
      }
    }
  }

  /** The plain sum of a weight over records. */
  function Sum<E>(es: seq<E>, weight: E -> int): int {
    if es == [] then 0 else weight(es[0]) + Sum(es[1..], weight)
  }

  /** A side's column of a total is the sum over that side's records only. */
  lemma {:induction false} TotalSide<E(!new)>(es: seq<E>, sideOf: E -> Side, weight: E -> int, side: Side)
    ensures Total(es, sideOf, weight).Of(side) == Sum(Filter(es, InBucket(sideOf, side)), weight)
  {
    if es != [] {
      TotalSide(es[1..], sideOf, weight, side);
      var t := Total(es[1..], sideOf, weight);
      if sideOf(es[0]) == side {
        var fs := Filter(es, InBucket(sideOf, side));
        assert fs[0] == es[0] && fs[1..] == Filter(es[1..], InBucket(sideOf, side));
      } else {
        assert !InBucket(sideOf, side)(es[0]);
        assert Filter(es, InBucket(sideOf, side)) == Filter(es[1..], InBucket(sideOf, side));
        assert t.Add(sideOf(es[0]), weight(es[0])).Of(side) == t.Of(side);
      }
    }
  }

  /** A sum of unit weights is a count. */
  lemma {:induction false} SumUnit<E>(es: seq<E>)
    ensures Sum(es, Unit) == |es|
  {
    if es != [] {
      SumUnit(es[1..]);
    }
  }

  /** A total of unit weights counts the records of each side. */
  lemma {:induction false} TotalCounts<E(!new)>(es: seq<E>, sideOf: E -> Side, weight: E -> int, side: Side)
    requires forall e :: weight(e) == 1
    ensures Total(es, sideOf, weight).Of(side) == |Filter(es, InBucket(sideOf, side))|
  {
    if es != [] {
      TotalCounts(es[1..], sideOf, weight, side);
      if sideOf(es[0]) == side {
        var fs := Filter(es, InBucket(sideOf, side));
        assert fs[0] == es[0] && fs[1..] == Filter(es[1..], InBucket(sideOf, side));
      } else {
        assert !InBucket(sideOf, side)(es[0]);
      }
    }
  }

  /** An axis whose records each hit exactly one bucket, pre-seeded and
      populated: each declared bucket holds, per side, the total weight of the
      records in that category. */
  function Axis<E(!new), K(==,!new)>(keys: seq<K>, es: seq<E>, keyOf: E -> K, sideOf: E -> Side,
                                     weight: E -> int): (a: map<K, Tally>)
    requires forall e :: e in es ==> keyOf(e) in keys
    ensures forall k :: k in a <==> k in keys
    ensures forall k, side :: k in a ==>
      a[k].Of(side) == Total(Filter(es, InBucket(keyOf, k)), sideOf, weight).Of(side)
  {
    var a := Tabulate(Seed(keys), es, e => [keyOf(e)], sideOf, weight);
    forall k, side | k in a
      ensures a[k].Of(side) == Total(Filter(es, InBucket(keyOf, k)), sideOf, weight).Of(side)
    {
      KeyTotalSingle(es, e => [keyOf(e)], keyOf, sideOf, weight, side, k);
    }
    a
  }

  /** Bucket sums of a one-bucket-per-record axis: over duplicate-free declared
      buckets, each side's column adds up to that side's total. */
  lemma AxisSum<E(!new), K(!new)>(keys: seq<K>, es: seq<E>, keyOf: E -> K, sideOf: E -> Side,
                                  weight: E -> int, side: Side)
    requires NoDup(keys)
    requires forall e :: e in es ==> keyOf(e) in keys
    ensures SumOver(keys, Axis(keys, es, keyOf, sideOf, weight), side) == Total(es, sideOf, weight).Of(side)
  {
    var keysOf := e => [keyOf(e)];
    TabulateSum(keys, Seed(keys), es, keysOf, sideOf, weight, side);
    SumOverSeed(keys, side);
    LoadSingle(es, keysOf, sideOf, weight, side);
  }

  /** A declared bucket that no record falls into stays at zero on both sides. */
  lemma AxisUnhit<E(!new), K(!new)>(keys: seq<K>, es: seq<E>, keyOf: E -> K, sideOf: E -> Side,
                                    weight: E -> int, k: K)
    requires forall e :: e in es ==> keyOf(e) in keys
    requires k in keys
    requires forall e :: e in es ==> keyOf(e) != k
    ensures Axis(keys, es, keyOf, sideOf, weight)[k] == Zero
  {
    UnhitBucket(es, e => [keyOf(e)], sideOf, weight, k);
  }

  /** A bucket of a one-bucket-per-record axis holds, per side, the summed
      weight of that side's records in the bucket. */
  lemma AxisBucket<E(!new), K(!new)>(keys: seq<K>, es: seq<E>, keyOf: E -> K, sideOf: E -> Side,
                                     weight: E -> int, k: K, side: Side)
    requires forall e :: e in es ==> keyOf(e) in keys
    requires k in keys
    ensures k in Axis(keys, es, keyOf, sideOf, weight)
    ensures Axis(keys, es, keyOf, sideOf, weight)[k].Of(side)
            == Sum(Filter(Filter(es, InBucket(sideOf, side)), InBucket(keyOf, k)), weight)
  {
    TotalSide(Filter(es, InBucket(keyOf, k)), sideOf, weight, side);
    FilterCommute(es, InBucket(keyOf, k), InBucket(sideOf, side));
  }

  /** What one side adds to a many-buckets-per-record axis, as a sum over
      that side's records of `load`, each record's weight times its number of
      buckets. */
  lemma {:induction false} LoadSide<E(!new), K(!new)>(es: seq<E>, keysOf: E -> seq<K>, sideOf: E -> Side,
                                                      weight: E -> int, load: E -> int, side: Side)
    requires forall e :: load(e) == weight(e) * |keysOf(e)|
    ensures Load(es, keysOf, sideOf, weight, side) == Sum(Filter(es, InBucket(sideOf, side)), load)
  {
    if es != [] {
      LoadSide(es[1..], keysOf, sideOf, weight, load, side);
      var p := InBucket(sideOf, side);
      if p(es[0]) {
        var fs := Filter(es, p);
        assert fs[0] == es[0] && fs[1..] == Filter(es[1..], p);
      } else {
        assert Filter(es, p) == Filter(es[1..], p);
      }
    }
  }

  /** Bucket sums of a many-buckets-per-record axis built from a seeded table:
      each side's column adds up to the side's load. */
  lemma TableSum<E(!new), K(!new)>(keys: seq<K>, es: seq<E>, keysOf: E -> seq<K>, sideOf: E -> Side,
                                   weight: E -> int, load: E -> int, side: Side)
    requires NoDup(keys)
    requires forall e, k :: e in es && k in keysOf(e) ==> k in keys
    requires forall e :: load(e) == weight(e) * |keysOf(e)|
    ensures SumOver(keys, Tabulate(Seed(keys), es, keysOf, sideOf, weight), side)
            == Sum(Filter(es, InBucket(sideOf, side)), load)
  {
    TabulateSum(keys, Seed(keys), es, keysOf, sideOf, weight, side);
    SumOverSeed(keys, side);
    LoadSide(es, keysOf, sideOf, weight, load, side);
  }

  /** What one side puts into bucket `k` of a many-buckets-per-record axis, as
      a sum over that side's records of `per`, each record's weight times the
      number of times `k` occurs among its buckets. */
  lemma {:induction false} KeyTotalSide<E(!new), K(!new)>(es: seq<E>, keysOf: E -> seq<K>, sideOf: E -> Side,
                                                          weight: E -> int, per: E -> int, side: Side, k: K)
    requires forall e :: per(e) == weight(e) * Occurrences(k, keysOf(e))
    ensures KeyTotal(es, keysOf, sideOf, weight, side, k) == Sum(Filter(es, InBucket(sideOf, side)), per)
  {
    if es != [] {
      KeyTotalSide(es[1..], keysOf, sideOf, weight, per, side, k);
      var p := InBucket(sideOf, side);
      if p(es[0]) {
        var fs := Filter(es, p);
        assert fs[0] == es[0] && fs[1..] == Filter(es[1..], p);
      } else {
        assert Filter(es, p) == Filter(es[1..], p);
      }
    }
  }

  /** A bucket of a many-buckets-per-record axis built from a seeded table: the
      column of each side holds that side's records' weight per occurrence of
      the bucket. */
  lemma TableBucket<E(!new), K(!new)>(keys: seq<K>, es: seq<E>, keysOf: E -> seq<K>, sideOf: E -> Side,
                                      weight: E -> int, per: E -> int, k: K, side: Side)
    requires Covered(Seed(keys).Keys, es, keysOf)
    requires k in keys
    requires forall e :: per(e) == weight(e) * Occurrences(k, keysOf(e))
    ensures k in Tabulate(Seed(keys), es, keysOf, sideOf, weight)
    ensures Tabulate(Seed(keys), es, keysOf, sideOf, weight)[k].Of(side)
            == Sum(Filter(es, InBucket(sideOf, side)), per)
  {
    KeyTotalSide(es, keysOf, sideOf, weight, per, side, k);
  }
  /** A declared bucket of a many-buckets-per-record axis that no record hits
      stays at zero on both sides. */
  lemma TableUnhit<E(!new), K(!new)>(keys: seq<K>, es: seq<E>, keysOf: E -> seq<K>, sideOf: E -> Side,
                                     weight: E -> int, k: K)
    requires Covered(Seed(keys).Keys, es, keysOf)
    requires k in keys
    requires forall e :: e in es ==> k !in keysOf(e)
    ensures Tabulate(Seed(keys), es, keysOf, sideOf, weight)[k] == Zero
  {
    UnhitBucket(es, keysOf, sideOf, weight, k);
    var t := Tabulate(Seed(keys), es, keysOf, sideOf, weight)[k];
    assert t == Tally(t.Of(Summoner), t.Of(Follower));
  }
}
